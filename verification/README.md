# FPRCade: models and proofs

Four programs of the repository, modelled in Dafny and proved against what they
are for: the FORTH-79 compiler and threaded-code machine, the older byte-code
FORTH, the Stackmaster-16 assembler, and the Stackmaster-16 emulator with its
hex loader. `dafny verify dfyconfig.toml` checks everything.

Each program is written twice. A pure specification says what every routine
does to a value that holds the whole state; a class keeps the same state in
place, in one array and a few fields, and every method is proved to do what its
specification function says. The theorems are about the specification. Where an
assertion ends the program the specification says `Stop`, and the method asks
its caller for a state in which it does not stop.

**The FORTH-79 system** (`SubProjects/CF_Forth_V2/src/ff.c`). One 64K byte array
holds the dictionary, the compiled code, the buffers and three stacks.
`Dataspace` and `ForthState` are that array and its layout, `ForthWords` has one
function for every word, the inner interpreter's step among them, and
`ForthMachine` is the program's own form. On top:

- `ForthSource` and `ForthSemantics` give structured source and its meaning: a
  body maps a state to a state, a call means the body called, a loop its body
  again, any other word what its routine does; where code goes on is not in it.
  `ForthCompile` and `ForthDefine` prove that the one-pass back-patching
  compiler produces the code of the structure, `ForthRun` and `ForthMeaning`
  that the inner interpreter on that code gets into exactly the state of the
  meaning, whatever words the body names; `ForthTheorem` has both ways,
  divergence included. A word that writes over the code it runs in, or over a
  return address, leads to the result `Astray`: `ForthFrame` is what each word
  of the table may write, `ForthOrderly` when no body can go astray.
  `ForthEffect` is a meaning on lists of values alone, which the other refines
  for bodies that only use the data stack.
- `ForthInterpret` applies this to INTERPRET, the word the program always runs:
  one turn of its loop, from its threaded code, finds the next word and handles
  it as the compiler above does, compiles a number, aborts, or asks for a line;
  and a run of it never ends but at BYE or at a failure. `ForthMini` is the loop
  in C that compiles INTERPRET, and the same about its turns.
- `ForthRollback` and `ForthLookup`: ABORT in the middle of a definition undoes
  it. `ForthDoes`: defining words and the words they make. `ForthCalls`: stack
  guards and call discipline, for the whole table of words. `ForthDictionary`:
  the linked list refines a list of entries. `ForthDecompile`: instruction
  boundaries and branch targets. `ForthInput`: the tokeniser, from a pasted text
  to the entries FIND delivers, and the words that read lines and comments.
  `Numerals`: (NUMBER), which both FORTH systems have, reads exactly the numerals
  of a grammar of its own, as their positional value; `Letters`: names are
  compared by letters, in either case. `ForthNumbers` and `ForthStorage`: (NUMBER)
  on counted strings, `!`, `.`, ALLOT and BYE.
  `ForthBootstrap`: the dictionary the program starts with, INTERPRET compiled
  by the compiler above included, satisfies what the others assume.

**The byte-code FORTH** (`SubProjects/CF_Forth/src`). The same back-patching,
but a definition is linked only at `;`. `ByteState` and `ByteWords` are its
byte codes and interpreter, `ByteMachine` the program's own form. `ByteSource`
and `ByteStructure` are structured source and that the compiling words lay
exactly its code; `ByteMeaning` and `ByteRun` its meaning and that the run of
that code realises it; `ByteEffect` the same meaning on lists of values;
`ByteTheorem` puts compiler and interpreter together, and `ByteInterpret`
applies it to INTERPRET. `ByteTurn` and `ByteTurnEnds` follow one turn of that
loop through its own byte code, from the text in the input buffer to the token
the compiler gets, a word executed or a line asked for. `ByteProgram` and `ByteTermination` have the measure
that makes every call end, `ByteCompile` what any definition keeps, `ByteDefine`
the definitions that always end, `ByteBootstrap` the dictionary `main` starts
with, `ByteStorage` the words that store, allot, define and read, `ByteAnswers`
what FIND2 and (NUMBER) answer.

**The assembler** (`SubProjects/FAsm/src/fa.c`). `AsmText` reads a line,
`AsmNumbers` numbers and symbols, `AsmCode` has the instruction generators,
`AsmPasses` the two passes; `AsmParser` and `AsmMachine` are the loops of the
program. `AsmSource` goes from the text of a line, whatever its case, spacing and
remarks, to what is read, `AsmErrors` says which lines are errors, `AsmData` goes
from a data directive to the bytes in the loaded memory. `HexFormat` and `HexOutput` are the writer of Intel hex records
(section "General Record Format" of the Intel Hexadecimal Object File Format
Specification, Rev. A), `HexRoundTrip` relates it to the loader, `AsmTheorem`
is pass agreement and the image theorem, `AsmSymbolFile` the symbol file.

**The emulator** (`SubProjects/FPEmu/src/fpemu.c`). `CpuState` is one
instruction, `CpuMachine` the program with its arrays and pointers, `CpuTheorem`
the run invariant and what the assembler's words do when they are executed,
`CpuOperators` every mnemonic with at most a stack, a size or a number as operand,
assembled, loaded and executed, against what it says; `CpuExceptions` how the
processor stops.

Where the code and its documentation disagree the model follows the code:

- The manual gives stack id 01 to the return stack and 10 to the control stack,
  and so does the emulator; the assembler has them the other way round
  (`CpuTheorem.LetterReaches`).
- The manual has NEG negate and NOT invert; the codes the assembler gives the two
  are the other way round (`CpuOperators.AssembledUnary`). Its IRD reads a port
  and its STO writes memory: in the emulator IRD reads memory, STO is illegal, and
  ISTO takes the port from below the value (`CpuOperators.AssembledRead`,
  `AssembledStore`). A stack letter that does not exist is assembled as a MOV
  (`CpuOperators.UnknownStack`).
- The comment above (NUMBER) has `#9` as a number; the code refuses a radix sign
  with a single digit, and one with the minus sign it looks for behind it
  (`Numerals.RadixSigns`).
- A line of more than six words is no error for the assembler: it is passed over in
  silence (`AsmSource.CodeParses`).
- A right parenthesis that directly follows `(` and its blank is not taken as the
  end of the comment but left to be read (`ForthInput.ParenSkips`).
- The manual's numerals need a digit after the sign and no sign inside;
  `read_number` accepts more, and six characters after 9 as hexadecimal digits
  (`AsmNumbers.NumbersRead` is the whole language).
- `@` guards against a full stack where it needs an element, and `.` does not
  guard at all (`ForthCalls.GuardsSuffice` says these are the only such cases).
- EXECUTE goes on at the next cell after any word but a colon word or a word
  made by a defining word (`ForthCalls.ExecuteAgrees` says exactly when that is
  what the word itself would do).
- In the byte-code FORTH the words JMP, JMP_FALSE and (LDN) can be named in a
  definition and then lack their operand (`ByteBootstrap.JumpByName`), so the
  termination theorem is about definitions that do not name them.
- The emulator adds 2 to the program counter once too often for NOP, HALT and
  LEAVE (`CpuState.Control`).
- `.w` and `.l` set the assembler's address to 0; the theorems that relate
  addresses to bytes are about sources without them.

Three limits come out of the theorems that no document mentions. INTERPRET aborts
on any token unless three cells of the data stack are free
(`ForthInterpret.TurnFull`); with two, `mini_interpret` still compiles a number
(`ForthMini.NumberCompiles`). In the byte-code FORTH `;` links a definition with
an IF still open, which jumps to 0xDEAD (`ByteDefine.OpenIf`).

Two conventions close what C leaves open. A cell read or written at 0xFFFF wraps
to byte 0, so theorems that need real cells ask for addresses below 0xFFFF. And
in the FORTH-79 system a compiling word that would run into the stacks stops
with `DictionaryFull` as a word of the specification, where the program has no
check and would overwrite them; the routines of `ForthMachine` are proved against
the specification without that limit.

## Model

| member | source | states |
|---|---|---|
| ForthCompile.CompileBody | SubProjects/CF_Forth_V2/src/ff.c:1701-1809 | for every well-nested body of words, numbers, IF/ELSE/THEN and BEGIN/AGAIN whose nesting fits the control stack and whose code fits below the stacks, feeding its tokens to the one-pass, back-patching words leaves exactly the structured code at HERE, control and data stack as they were, and no other byte changed but HERE and free stack space |
| ForthMeaning.RunBody | SubProjects/CF_Forth_V2/src/ff.c:2152-2166 | the inner interpreter on the code of a body, in any state and whatever words the body names, realises the structured meaning exactly: it is in the very state of the result, memory included, when the body ends, is left by EXIT, aborts, says BYE or does what structure does not account for, stops where the meaning stops, and is still inside the code after `fuel` steps when the fuel runs out |
| ForthMeaning.RunWord | SubProjects/CF_Forth_V2/src/ff.c:1130-1159 | the same for any word named in code: one that is called means its body, EXIT leaves, EXECUTE of a word that is called calls it, and every other word of the table means the state its routine gives |
| ForthMeaning.RunCall | SubProjects/CF_Forth_V2/src/ff.c:1130-1159 | a called body runs one return level deeper, and the end of it, or an EXIT, pops its own frame; the caller goes on at its next cell unless the body has changed that frame |
| ForthMeaning.RunEnter | SubProjects/CF_Forth_V2/src/ff.c:1130-1141 | entering a colon word or a word made by a defining word, by name or by EXECUTE, means its body after the pushes the routine makes, or an abort where a stack is full |
| ForthMeaning.RunLoop | SubProjects/CF_Forth_V2/src/ff.c:1791-1809 | BEGIN ... AGAIN runs its body again from the first cell, and never comes to its end: only EXIT, ABORT, BYE or a stop get out of it |
| ForthDefine.DefineWord | SubProjects/CF_Forth_V2/src/ff.c:1194-1248 | `: name body ;`, where the body names any entries that are not immediate, succeeds when there is a name and room, adds one word that means its body (recursion included) under the name read and without the dirty flag, keeps every older word and lookup, and leaves stacks and mode as they were |
| ForthTheorem.DefinedWordMeans | SubProjects/CF_Forth_V2/src/ff.c:2152-2166 | a word defined by the compiler and later met by the inner interpreter, in any state that still holds the dictionary, does what its source means |
| ForthTheorem.EffectRuns | SubProjects/CF_Forth_V2/src/ff.c:2152-2166 | where no word writes below the stacks the run of a body gives the values its data-stack semantics gives, returns them to the caller, or aborts, with everything below the stacks as it was |
| ForthEffect.BodyAgrees | SubProjects/CF_Forth_V2/src/ff.c:2152-2166 | the meaning on whole states refines a meaning on lists of values alone, for every body of such words, calls, branches and loops |
| ForthEffect.PrimitiveEnds | SubProjects/CF_Forth_V2/src/ff.c:433-442 | what the fourteen words that only use the data stack do to the list of its values, guards included |
| ForthTheorem.Adequacy | SubProjects/CF_Forth_V2/src/ff.c:2152-2166 | the code of a body that never goes astray, called or run with the recover address elsewhere, first arrives at its end in a given state if and only if the source means that state |
| ForthTheorem.Divergence | SubProjects/CF_Forth_V2/src/ff.c:2152-2166 | a body whose meaning needs ever more fuel keeps the machine inside its code for every number of steps |
| ForthOrderly.BodyOnCourse | SubProjects/CF_Forth_V2/src/ff.c:2152-2166 | a body none of whose words, as they are reached, writes over the vocabulary or the return stack, EXECUTEs EXIT or jumps never goes astray: it ends at its end with the return stack of its start, returns to its caller, aborts, says BYE or stops |
| ForthOrderly.OrdinaryKeeps | SubProjects/CF_Forth_V2/src/ff.c:956-992 | such a word, through any number of EXECUTEs, leaves code and return stack as they were |
| ForthOrderly.CalmOrderly | SubProjects/CF_Forth_V2/src/ff.c:2152-2166 | a condition to be read off the opcodes alone is enough: bodies of words that neither lay code nor patch, store, write a header or jump are orderly in every state |
| ForthOrderly.CalmAdequacy | SubProjects/CF_Forth_V2/src/ff.c:2152-2166 | so for those bodies, calls and recursion included, run and meaning determine each other without a condition on the run |
| ForthFrame.WordSpares | SubProjects/CF_Forth_V2/src/ff.c:1851-1904 | what each word of the whole table may write: the return stack, and the code below any address, stay byte for byte as they were unless the patched operand, the stored cell, the newest header or the code laid at HERE lies in them |
| ForthInterpret.TurnHandles | SubProjects/CF_Forth_V2/src/interpret.fs:1-36 | a turn of INTERPRET's loop, from its own threaded code, whose token names an entry comes to the word that handles it, with the entry on the stack that was there |
| ForthInterpret.TurnCompiles | SubProjects/CF_Forth_V2/src/interpret.fs:1-36 | while compiling that turn does with the entry exactly what the compiler is proved for: immediate words are performed, others appended |
| ForthInterpret.TurnNumbers | SubProjects/CF_Forth_V2/src/interpret.fs:1-36 | a token that is no entry but a number is compiled as that number, or left on the stack when not compiling |
| ForthInterpret.TurnAborts | SubProjects/CF_Forth_V2/src/interpret.fs:1-36 | a token that is neither aborts: stacks and input emptied, a half-built word unlinked, the rest of memory as FIND left it |
| ForthInterpret.TurnRefills | SubProjects/CF_Forth_V2/src/interpret.fs:1-36 | with no token left the turn asks QUERY for a line, with the data stack as it was |
| ForthInterpret.TurnFull | SubProjects/CF_Forth_V2/src/interpret.fs:1-36 | with fewer than three free cells on the data stack every turn aborts, whatever the token |
| ForthInterpret.InterpretRuns | SubProjects/CF_Forth_V2/src/ff.c:2130-2166 | INTERPRET started where the program starts it, in any state that holds the bootstrapped dictionary: the run realises its source and never ends or returns; an ABORT brings it back to its first instruction with an empty return stack and the dictionary intact, and otherwise it ends at BYE, stops, leaves structure or runs on |
| ForthMini.EntryCompiles | SubProjects/CF_Forth_V2/src/ff.c:1985-2047 | a turn of mini_interpret that finds an entry while compiling is one step of the compiler on that entry |
| ForthMini.NumberCompiles | SubProjects/CF_Forth_V2/src/ff.c:1985-2047 | and one that finds none is a step on the number, exactly when two cells are free; with one free cell (NUMBER) aborts and nothing is compiled |
| ForthMini.EntryExecutes | SubProjects/CF_Forth_V2/src/ff.c:1985-2047 | a turn that finds an entry while interpreting executes it, immediate or not |
| ForthMini.EndsAtEnd | SubProjects/CF_Forth_V2/src/ff.c:1985-2047 | the loop ends exactly at a turn whose FIND finds nothing and has read no word, and leaves nothing behind |
| ForthMini.NumberRefused | SubProjects/CF_Forth_V2/src/ff.c:1985-2047 | while interpreting a word that is no entry fails, number or not |
| ForthRollback.Rollback | SubProjects/CF_Forth_V2/src/ff.c:404-428 | starting `:` with an empty control stack, after any sequence of compile-time tokens, however ill nested, the definition given up by ABORT leaves every stack empty, the mode interpreting, the old dictionary head, and every byte of the older dictionary unchanged |
| ForthRollback.AbortRollsBack | SubProjects/CF_Forth_V2/src/ff.c:404-428 | ABORT at any moment of a definition unlinks it and empties the stacks and the input |
| ForthLookup.RollbackMeaning | SubProjects/CF_Forth_V2/src/ff.c:753-797 | after a definition given up, FIND answers for every name exactly what it answered before `:`, and the list of entries is the same |
| ForthLookup.DefinitionMeaning | SubProjects/CF_Forth_V2/src/ff.c:753-797 | after a finished definition FIND answers the new entry for its own name in either case of its letters, and for every other name what it answered before |
| ForthLookup.FindIsWordNamed | SubProjects/CF_Forth_V2/src/ff.c:753-797 | the loop's answer depends on nothing but the letters of the counted string and the chain |
| ForthLookup.AnyCase | SubProjects/CF_Forth_V2/src/ff.c:753-797 | FIND answers the same entry for every recasing of a name: two counted strings whose characters are equal or stand at the same place of the two written-out alphabets find the same |
| ForthLookup.ImmediateMarks | SubProjects/CF_Forth_V2/src/ff.c:1611-1625 | IMMEDIATE sets the immediate flag of the newest entry, leaves its other flags and every other byte and register alone, and a compiler step that then meets the entry executes it |
| ForthLookup.WordNamedFrame | SubProjects/CF_Forth_V2/src/ff.c:753-797 | code compiled above the dictionary changes the answer for no name |
| ForthDoes.DefineDefiner | SubProjects/CF_Forth_V2/src/ff.c:517-551 | `: name CREATE , DOES> body ;` records in the header the address just after DOES_RT and EXIT, and lays the body there |
| ForthDoes.MakeWord | SubProjects/CF_Forth_V2/src/ff.c:490-551 | running the defining word makes a word with the value in its parameter field and the recorded does code, pops the value, and resumes the caller at its next cell five steps later; the word bears the name that was read |
| ForthLookup.MadeMeaning | SubProjects/CF_Forth_V2/src/ff.c:490-551 | FIND answers that word to its name, and to every other name what it answered before |
| ForthDoes.MadeWordMeans | SubProjects/CF_Forth_V2/src/ff.c:562-587 | a word so made pushes its own parameter field, runs the does part, whatever words that names, and goes on at the caller's next cell |
| ForthCalls.GuardsSuffice | SubProjects/CF_Forth_V2/src/ff.c:70-119 | whatever memory holds, performing any word of the table, through any depth of EXECUTE, trips the assertion in push or pop if and only if it comes to @ or `.` with an empty data stack |
| ForthCalls.PerformEffect | SubProjects/CF_Forth_V2/src/ff.c:956-992 | however many EXECUTEs lead to it, any word of the table other than EXIT leaves the return stack as it was, pushes the address after the step, or aborts; for words that write to memory, where what they write is outside the return stack |
| ForthCalls.StepDiscipline | SubProjects/CF_Forth_V2/src/ff.c:2152-2166 | every step of code that does not EXECUTE EXIT and does not write into the return stack, any word of the table, leaves the return stack as it was, pushes the address after itself, pops the address it goes to, or aborts |
| ForthCalls.FrameKept | SubProjects/CF_Forth_V2/src/ff.c:1130-1159 | while a call lasts the return stack below and at its frame does not change, whatever words are performed, for any nesting and for recursion |
| ForthCalls.CallReturns | SubProjects/CF_Forth_V2/src/ff.c:1130-1159 | when such code first gets back to its caller's depth it is at the cell after the call with the caller's return stack, or ABORT has emptied it |
| ForthCalls.ExecuteAgrees | SubProjects/CF_Forth_V2/src/ff.c:956-992 | EXECUTE does what naming the word does if and only if a condition on the state before holds: for EXIT on the top of the return stack, for JUMP and JUMP_IF on the operand, for PUSH on the stack and the recover address, for EXECUTE on the word below; for every other word always |
| ForthCalls.ExecuteOfOrdinary | SubProjects/CF_Forth_V2/src/ff.c:956-992 | every word but EXIT, JUMP, JUMP_IF, PUSH and EXECUTE does under EXECUTE what it does when named |
| ForthCalls.ExecuteExecute | SubProjects/CF_Forth_V2/src/ff.c:956-992 | EXECUTE given EXECUTE given a colon word pushes the return address but does not run the word |
| ForthDictionary.EntriesDescend | SubProjects/CF_Forth_V2/src/ff.c:220-246 | following `previous` from the head goes strictly down, above the system variables, and ends at 0 |
| ForthDictionary.FindNameNewest | SubProjects/CF_Forth_V2/src/ff.c:753-797 | FIND's search answers the newest entry whose name matches ignoring case, and nothing exactly when no entry does |
| ForthDictionary.FindOpcodeNewest | SubProjects/CF_Forth_V2/src/ff.c:322-345 | find_via_opcode answers the newest entry with that code field, and nothing exactly when none has it |
| Letters.SameNameLetters | SubProjects/CF_Forth_V2/src/ff.c:190-203 | strncasecmp over the counts is equality of letters when the word looked for holds no NUL |
| Letters.FoldsCase | SubProjects/CF_Forth_V2/src/ff.c:190-203 | the folding of strncasecmp makes two characters equal if and only if they are equal or stand at the same place of the alphabets abc... and ABC... written out |
| ForthDictionary.EntriesFrame | SubProjects/CF_Forth_V2/src/ff.c:220-246 | the list of entries depends only on the bytes below the bound |
| ForthDecompile.SweepShowsCode | SubProjects/CF_Forth_V2/src/ff.c:345-393 | the decompiler's sweep shows exactly the instructions the compiler emitted and never reads a literal or branch operand as a word |
| ForthDecompile.SweepEndsAtExit | SubProjects/CF_Forth_V2/src/ff.c:808-867 | on a whole definition the sweep ends at the EXIT laid by `;` |
| ForthDecompile.SweepStops | SubProjects/CF_Forth_V2/src/ff.c:848-862 | with an EXIT named inside, the sweep stops at the first of them |
| ForthDecompile.SweepWhole | SubProjects/CF_Forth_V2/src/ff.c:848-862 | the sweep shows the whole definition if and only if no EXIT is named in it |
| ForthDecompile.DecompileShows | SubProjects/CF_Forth_V2/src/ff.c:808-867 | DECOMPILE shows, of a colon word, the instructions of its body, and of a word made by a defining word those of its does part, each with the EXIT behind them, and takes just the word from the stack |
| ForthDecompile.JumpsLand | SubProjects/CF_Forth_V2/src/ff.c:1701-1809 | every branch in compiled code, with EXIT named in it or not, goes to the start of an instruction of the same body or to its end |
| ForthBootstrap.Bootstrapped | SubProjects/CF_Forth_V2/src/ff.c:2070-2116 | from the reset state the 39 core words fit and give a dictionary on which everything above holds, defining words included, with every core word usable in definitions |
| ForthBootstrap.ResetStarts | SubProjects/CF_Forth_V2/src/ff.c:299-312 | what ff_reset leaves: HERE behind the system variables, base ten, no input; the system starts interpreting if and only if memory held 0 at STATE |
| ForthBootstrap.CoreImmediates | SubProjects/CF_Forth_V2/src/ff.c:2070-2118 | the core words that are performed while compiling are `;`, BEGIN, AGAIN, IF, THEN, ELSE, WHILE, REPEAT, LITERAL, DOES> and `(`, and no other |
| ForthBootstrap.Started | SubProjects/CF_Forth_V2/src/interpret.fs:1-36 | all of bootstrap: INTERPRET compiled by the compiler above from its source, then BASE, !, DECOMPILE and +; the final state has what definitions, defining words and rollback ask of it, and every name means what it meant or the newer word |
| ForthBootstrap.AddMany | SubProjects/CF_Forth_V2/src/ff.c:2046-2064 | after any list of core words each has its entry, and a lookup by opcode or by name answers the last word added with it |
| ForthInput.RunsSeparate | SubProjects/CF_Forth_V2/src/ff.c:620-682 | the maximal runs of a text are the only way to read it as non-empty words separated by delimiters |
| ForthInput.TokenIsRun | SubProjects/CF_Forth_V2/src/ff.c:620-682 | with runs of at most 126 characters WORD delivers the first maximal run of the unread input, leaves the rest, and shrinks the unread input; at the end it delivers the empty word |
| ForthInput.ReadsAllRuns | SubProjects/CF_Forth_V2/src/ff.c:620-682 | successive reads deliver all runs in order and then the empty word for ever, whatever else runs in between |
| ForthInput.FindIsNext | SubProjects/CF_Forth_V2/src/ff.c:753-797 | FIND pushes the entry named by the next run of the input, 0 for an unknown name or at the end |
| ForthInput.FindsAllWords | SubProjects/CF_Forth_V2/src/ff.c:255-280 | from text to dictionary: once a text is pasted, the kth FIND puts the kth word of the text, white space as blanks, in the word buffer and pushes the entry it names in the dictionary as it is by then, whatever runs in between; after the last word every FIND delivers the empty word and 0 |
| ForthInput.PastedText | SubProjects/CF_Forth_V2/src/ff.c:255-280 | a text once pasted is the unread input, with a blank for every tab, end of line and other white space |
| ForthInput.QueryReads | SubProjects/CF_Forth_V2/src/ff.c:933-949 | QUERY makes the next line, newline included and white space blanked, the unread text and leaves the later lines; of a line of 79 characters or more it takes the first 79 and leaves the rest |
| ForthInput.ParenSkips | SubProjects/CF_Forth_V2/src/ff.c:458-481 | `(` goes on behind the next right parenthesis, unless that is the very next character, which stays to be read |
| ForthInput.ParenAborts | SubProjects/CF_Forth_V2/src/ff.c:458-481 | and where there is none it aborts |
| ForthNumbers.CountedNumbers | SubProjects/CF_Forth_V2/src/ff.c:1411-1530 | (NUMBER)'s whole language, for every memory and base: a counted string converts to k if and only if it is a quoted character of that signed code or a numeral, in the written-out digits of its base, whose positional value with sign is k modulo 64K |
| Numerals.NumbersRead | SubProjects/CF_Forth_V2/src/ff.c:1411-1530 | the same for any text and any base, which is what both FORTH systems read: the routine's whole language and the values of its numerals |
| Numerals.NumeralValue | SubProjects/CF_Forth_V2/src/ff.c:1255-1268 | every numeral of the stated shape is read as its positional value with its sign, modulo 64K |
| Numerals.RadixSigns | SubProjects/CF_Forth_V2/src/ff.c:1428-1473 | a radix sign with a single digit, or with a minus sign behind it, is no number |
| Numerals.ConvertDigits | SubProjects/CF_Forth_V2/src/ff.c:1476-1494 | the digit loop |
| Numerals.ConvertText | SubProjects/CF_Forth_V2/src/ff.c:1411-1530 | value or failure for the characters at an address |
| Letters.SameCharacters | SubProjects/CF_Forth_V2/src/ff.c:190-203 | strncasecmp(...) == 0 over n characters |
| ForthStorage.StoreShown | SubProjects/CF_Forth_V2/src/ff.c:1354-1369 | `!` stores the second value at the address on top and changes no other byte below the stacks; @ of that address then gives the value |
| ForthStorage.AllotMoves | SubProjects/CF_Forth_V2/src/ff.c:1043-1056 | ALLOT moves HERE on by the value it takes, modulo 64K, and changes nothing else below the stacks |
| ForthStorage.NumberLeft | SubProjects/CF_Forth_V2/src/ff.c:1411-1530 | (NUMBER) leaves the value and 1, or the address and 0, on the data stack that was there, or aborts when the second cell does not fit |
| ForthStorage.DotTakes | SubProjects/CF_Forth_V2/src/ff.c:1305-1336 | `.` takes the top value and changes nothing else, in every base from 2 on |
| ForthStorage.ByeEnds | SubProjects/CF_Forth_V2/src/ff.c:1343-1347 | BYE is the last thing the machine does: every longer run ends in the state it leaves |
| ForthMachine.Forth.constructor | SubProjects/CF_Forth_V2/src/ff.c:299-312 | empty stacks in their regions, no dictionary, empty input, HERE after the system variables; every other byte, STATE among them, as the memory came |
| ForthMachine.Forth.InitAllStacks | SubProjects/CF_Forth_V2/src/ff.c:286-293 | the three stacks are empty and disjoint, right below the top of the array, and ctx->top is below them |
| ForthMachine.Forth.Push | SubProjects/CF_Forth_V2/src/ff.c:111-119 | stores the cell at the stack pointer and moves it on; the assertion is the precondition |
| ForthMachine.Forth.Pop | SubProjects/CF_Forth_V2/src/ff.c:95-106 | the cell below the stack pointer and the pointer moved back; the assertion is the precondition |
| ForthMachine.Forth.InstrAbort | SubProjects/CF_Forth_V2/src/ff.c:404-428 | input, stacks and mode reset, a half-built word unlinked, recover address returned |
| ForthMachine.Forth.InstrDrop | SubProjects/CF_Forth_V2/src/ff.c:433-442 | the top is gone, or abort on an empty stack |
| ForthMachine.Forth.InstrDup | SubProjects/CF_Forth_V2/src/ff.c:1375-1392 | the top twice, or abort when empty or full |
| ForthMachine.Forth.InstrAdd | SubProjects/CF_Forth_V2/src/ff.c:689-709 | 16-bit sum, or abort when one of the two is missing, the other already popped |
| ForthMachine.Forth.InstrEqual | SubProjects/CF_Forth_V2/src/ff.c:716-740 | 1 or 0, same guards |
| ForthMachine.Forth.HelperGetVariable | SubProjects/CF_Forth_V2/src/ff.c:1071-1081 | address of the variable, or abort when full |
| ForthMachine.Forth.InstrAt | SubProjects/CF_Forth_V2/src/ff.c:1576-1588 | guards against overflow where it should guard against underflow: an empty stack is the one precondition |
| ForthMachine.Forth.InstrCAt | SubProjects/CF_Forth_V2/src/ff.c:1590-1602 | the byte, sign-extended |
| ForthMachine.Forth.InstrQImmediate | SubProjects/CF_Forth_V2/src/ff.c:1636-1656 | 1 when the entry's immediate flag is set, else 0 |
| ForthMachine.Forth.InstrImmediate | SubProjects/CF_Forth_V2/src/ff.c:1615-1625 | sets the immediate flag of the newest entry and nothing else |
| ForthMachine.Forth.InstrJump | SubProjects/CF_Forth_V2/src/ff.c:999-1007 | goes to the operand |
| ForthMachine.Forth.InstrJumpIfFalse | SubProjects/CF_Forth_V2/src/ff.c:1016-1036 | pops; goes to the operand on 0, past it otherwise |
| ForthMachine.Forth.InstrPush | SubProjects/CF_Forth_V2/src/ff.c:1661-1672 | pushes the operand and goes past it |
| ForthMachine.Forth.GetParameterField | SubProjects/CF_Forth_V2/src/ff.c:54-64 | aligned address after the name; the count is a signed byte |
| ForthMachine.Forth.InstrEnter | SubProjects/CF_Forth_V2/src/ff.c:1130-1141 | pushes the next cell's address and goes to the parameter field |
| ForthMachine.Forth.InstrExit | SubProjects/CF_Forth_V2/src/ff.c:1149-1159 | goes to the popped address, or aborts |
| ForthMachine.Forth.InstrCreateEnter | SubProjects/CF_Forth_V2/src/ff.c:913-925 | pushes the parameter field |
| ForthMachine.Forth.InstrDoesEnter | SubProjects/CF_Forth_V2/src/ff.c:562-587 | pushes the parameter field and the return address and goes to the does code; a full return stack aborts after the first push |
| ForthMachine.Forth.FindViaOpcode | SubProjects/CF_Forth_V2/src/ff.c:322-345 | the loop finds the newest entry with the opcode |
| ForthMachine.Forth.InstrComma | SubProjects/CF_Forth_V2/src/ff.c:1280-1295 | appends the popped cell at HERE |
| ForthMachine.Forth.InstrLiteral | SubProjects/CF_Forth_V2/src/ff.c:1538-1554 | appends PUSH and the popped cell |
| ForthMachine.Forth.InstrBegin | SubProjects/CF_Forth_V2/src/ff.c:596-607 | HERE on the control stack |
| ForthMachine.Forth.InstrIf | SubProjects/CF_Forth_V2/src/ff.c:1701-1729 | appends JUMP_IF and an open operand whose address goes on the control stack |
| ForthMachine.Forth.InstrThen | SubProjects/CF_Forth_V2/src/ff.c:1735-1750 | the open operand becomes HERE |
| ForthMachine.Forth.InstrElse | SubProjects/CF_Forth_V2/src/ff.c:1756-1782 | the open operand becomes the address after the JUMP it appends, whose operand is left open |
| ForthMachine.Forth.InstrAgain | SubProjects/CF_Forth_V2/src/ff.c:1791-1809 | appends JUMP back to the popped address |
| ForthMachine.Forth.InstrSemicolon | SubProjects/CF_Forth_V2/src/ff.c:1228-1248 | appends EXIT, ends compiling, clears the dirty flag |
| ForthMachine.Forth.InstrDoes | SubProjects/CF_Forth_V2/src/ff.c:517-551 | appends DOES_RT and EXIT and records the address after them |
| ForthMachine.Forth.InstrDoesRt | SubProjects/CF_Forth_V2/src/ff.c:490-510 | turns the newest entry into a DOES_ENTER word with the does code ip+4 |
| ForthMachine.Forth.PasteCode | SubProjects/CF_Forth_V2/src/ff.c:255-280 | the unread input is the text with white space blanked; nothing else changes; refuses 1024 characters or more |
| ForthMachine.Forth.SkipDelimiters | SubProjects/CF_Forth_V2/src/ff.c:644-650 | first index that does not hold the delimiter, or the end |
| ForthMachine.Forth.CopyToken | SubProjects/CF_Forth_V2/src/ff.c:653-661 | the characters up to the delimiter copied to the word buffer |
| ForthMachine.Forth.Tokenise | SubProjects/CF_Forth_V2/src/ff.c:636-674 | count, characters and terminator in the word buffer, >IN moved; the inner assertion has no path to it |
| ForthMachine.Forth.InstrWord | SubProjects/CF_Forth_V2/src/ff.c:620-682 | tokenises with the popped delimiter and pushes the word buffer's address |
| ForthMachine.Forth.ComparePackedString | SubProjects/CF_Forth_V2/src/ff.c:190-203 | equal counts and equal letters |
| ForthMachine.Forth.Search | SubProjects/CF_Forth_V2/src/ff.c:775-787 | the loop finds the newest entry of that name |
| ForthMachine.Forth.InstrFind | SubProjects/CF_Forth_V2/src/ff.c:753-797 | the entry found or 0 |
| ForthMachine.Forth.AddDictEntry | SubProjects/CF_Forth_V2/src/ff.c:220-246 | a new head at HERE with the given fields, name copied, HERE aligned after it |
| ForthMachine.Forth.InstrColon | SubProjects/CF_Forth_V2/src/ff.c:1194-1221 | new dirty ENTER entry and compiling mode, or abort without a name |
| ForthMachine.Forth.InstrCreate | SubProjects/CF_Forth_V2/src/ff.c:876-904 | new CREATE_ENTER entry with the defining word's does code, or abort without a name |
| ForthMachine.Forth.InstrExecute | SubProjects/CF_Forth_V2/src/ff.c:956-992 | performs the popped word and returns its pointer only if it recovered or entered |
| ForthMachine.Forth.Dispatch | SubProjects/CF_Forth_V2/src/ff.c:1851-1904 | the table's routine for the opcode |
| ForthMachine.Forth.InnerStep | SubProjects/CF_Forth_V2/src/ff.c:2152-2166 | fetch the word at ip, perform it, take over the pointer it returns |
| ForthMachine.Forth.InnerInterpreter | SubProjects/CF_Forth_V2/src/ff.c:2152-2166 | n turns of the inner interpreter's loop, fewer when BYE is said |
| ForthMachine.Forth.InstrQuery | SubProjects/CF_Forth_V2/src/ff.c:933-949 | the next line of the input, at most 79 characters, becomes the unread text |
| ForthMachine.Forth.InstrParen | SubProjects/CF_Forth_V2/src/ff.c:458-481 | the input goes on behind the next right parenthesis; abort when there is none |
| ForthMachine.Forth.Convert | SubProjects/CF_Forth_V2/src/ff.c:1419-1495 | prefix, quoted character, base variable and digits of the counted string: its value modulo 64K, or that it is no number |
| ForthMachine.Forth.InstrPNumber | SubProjects/CF_Forth_V2/src/ff.c:1411-1530 | value and 1, or the address and 0; abort with no value, or with no room for the second |
| ForthMachine.Forth.InstrDot | SubProjects/CF_Forth_V2/src/ff.c:1305-1336 | pops without a guard: an empty stack is an assertion, base 0 a division by zero, base 1 the assertion on its buffer |
| ForthMachine.Forth.InstrAllot | SubProjects/CF_Forth_V2/src/ff.c:1043-1056 | HERE moved on by the popped cell, wrapping |
| ForthMachine.Forth.InstrStore | SubProjects/CF_Forth_V2/src/ff.c:1354-1369 | the second value at the address on top, or abort when either is missing |
| ForthMachine.Forth.InstrBye | SubProjects/CF_Forth_V2/src/ff.c:1343-1347 | the inner interpreter's flag cleared and nothing else |
| ForthMachine.Forth.Sweep | SubProjects/CF_Forth_V2/src/ff.c:848-862 | DECOMPILE's loop shows exactly the addresses of the specification's sweep |
| ForthMachine.Forth.InstrDecompile | SubProjects/CF_Forth_V2/src/ff.c:808-867 | pops the entry and shows the sweep of a colon word or of a does part, nothing for other words |
| ForthMachine.Forth.MiniTurn | SubProjects/CF_Forth_V2/src/ff.c:1985-2047 | one turn of mini_interpret's loop: FIND, its answer popped, number or entry dealt with, or the end of the input |
| ForthMachine.Forth.CompileNumber | SubProjects/CF_Forth_V2/src/ff.c:2008-2022 | the branch for a word not in the dictionary: (NUMBER), DROP and LITERAL |
| ForthMachine.Forth.HandleEntry | SubProjects/CF_Forth_V2/src/ff.c:2023-2044 | the branch for an entry: appended when compiling and not immediate, performed otherwise |
| ForthMachine.Forth.MiniInterpret | SubProjects/CF_Forth_V2/src/ff.c:1985-2047 | the loop of such turns until the input ends, at most n |
| ForthWords.SkipDelimiter | SubProjects/CF_Forth_V2/src/ff.c:644-649 | all characters before the result are delimiters and the one at it is not |
| ForthWords.ScanToken | SubProjects/CF_Forth_V2/src/ff.c:654-660 | no character before the result is a delimiter and the one at it is |
| ForthState.InitStack | SubProjects/CF_Forth_V2/src/ff.c:177-185 | an empty region of that many cells below `where`, one cell apart from the next |
| AsmTheorem.PassesAgree | SubProjects/FAsm/src/fa.c:2118-2201 | whenever the second pass gets as far as a line, it does so at the address the first pass had there, .org operands and forward references included |
| AsmTheorem.StepAgrees | SubProjects/FAsm/src/fa.c:2048-2109 | from the same address a line that succeeds in both passes leads to the same address, though the second pass knows more symbols |
| AsmTheorem.LabelCheck | SubProjects/FAsm/src/fa.c:855-889 | for a label the first pass accepted the second pass never misses it, and its address mismatches exactly when an earlier symbol of that name has another value |
| AsmTheorem.DistinctLabels | SubProjects/FAsm/src/fa.c:855-889 | with distinct names no label check can fail |
| AsmTheorem.AddressIsPosition | SubProjects/FAsm/src/fa.c:2118-2201 | without .w and .l the assembler's address is, modulo 64K, where the hex writer puts the next byte |
| AsmTheorem.LabelIsAddress | SubProjects/FAsm/src/fa.c:833-852 | the value the table gives a label is the address of the next byte emitted after it |
| AsmTheorem.EndToEnd | SubProjects/FPEmu/src/fpemu.c:624-674 | if assembling succeeds inside the address space, loading the hex file gives the memory image of everything the second pass emitted |
| AsmTheorem.InstructionLoaded | SubProjects/FPEmu/src/fpemu.c:154-170 | every word of every instruction line is in the loaded memory at the line's address unless a later line overwrote it |
| AsmData.StringLoaded | SubProjects/FAsm/src/fa.c:1574-1606 | from the line alone: after loading, the byte at the address of a .STR line plus j is the jth character of its string modulo 256, unless a later line overwrote it |
| AsmData.ValuesLoaded | SubProjects/FAsm/src/fa.c:1611-1659 | the byte at the address of a .B line plus j is the value of its jth word modulo 256, and each of them fits a signed or an unsigned byte |
| AsmData.PaddingLoaded | SubProjects/FAsm/src/fa.c:1820-1857 | from the address of an .ALIGN line up to the next multiple of 2 or 4, where the next line starts, there is 0xAA |
| AsmData.OrgPlaced | SubProjects/FAsm/src/fa.c:1775-1818 | the line behind .ORG starts at its number, which is not negative and fits a cell |
| AsmErrors.OperandsAccepted | SubProjects/FAsm/src/fa.c:893-1570 | an instruction is accepted exactly with the operands its generator asks for: stack letters for LD, LDL and LDH with a number up to 1023 or 63 for the halves, a label for BIF, one at a multiple of 4 for ENTER, a size letter for RD, IRD, STO and ISTO, any word for the stack words |
| AsmErrors.BytesAccepted | SubProjects/FAsm/src/fa.c:1611-1659 | .B is accepted exactly when every word is a number that fits a byte, signed or unsigned |
| AsmErrors.ScanAccepts | SubProjects/FAsm/src/fa.c:2048-2109 | the first pass accepts a line exactly when what it defines has a value in range and room in the table of 1024, and its mnemonic is known |
| AsmSource.WordsLine | SubProjects/FAsm/src/fa.c:2152-2183 | from the text of a line: words in any case, indented, with any number of blanks between them and a remark behind, are read as an instruction of those words in capitals |
| AsmSource.StringLine | SubProjects/FAsm/src/fa.c:1953-2001 | a .STR line, directive in any case, with a remark behind it, is read as a string with the very characters between its quotes |
| AsmSource.CodeParses | SubProjects/FAsm/src/fa.c:2203-2238 | up to six words, however far apart, are the words of an instruction; a line with more of them is passed over |
| AsmSource.DirectiveParses | SubProjects/FAsm/src/fa.c:2006-2040 | .B, .ORG, .DEF and .ALIGN with their operands are read as those directives |
| AsmSource.LabelParses | SubProjects/FAsm/src/fa.c:1881-1894 | a name and a colon are read as a label, whatever stands behind |
| AsmSource.StringParses | SubProjects/FAsm/src/fa.c:1574-1606 | .STR and a quoted text are read as that string |
| AsmSource.PlainStrips | SubProjects/FAsm/src/fa.c:1913-2001 | stripping leaves the statement, in capitals, without indent, trailing white space and remark |
| AsmCode.GeneratedSize | SubProjects/FAsm/src/fa.c:2076-2098 | a generator that reports no error emits as many bytes as its table entry says: the delta check cannot fail |
| AsmNumbers.FindsFirst | SubProjects/FAsm/src/fa.c:772-788 | find_symbol answers the first symbol of that name and fails exactly when there is none |
| AsmNumbers.FoundStays | SubProjects/FAsm/src/fa.c:772-822 | a symbol found keeps its value in every table that continues this one |
| AsmNumbers.NumeralValue | SubProjects/FAsm/src/fa.c:550-679 | every well-formed numeral in base 2, 10 or 16, digits in either case, is read as its positional value with its sign |
| AsmNumbers.CharacterValue | SubProjects/FAsm/src/fa.c:566-571 | a quoted character is read as its code |
| AsmNumbers.NumbersRead | SubProjects/FAsm/src/fa.c:539-679 | the whole language: a word is read as a number if and only if it is a quoted character, a numeral of the wider kind, or the name of a symbol that does not start like a number; everything else that starts like a number is malformed |
| AsmNumbers.LooseValue | SubProjects/FAsm/src/fa.c:539-679 | every numeral of the wider kind (inner minus signs as zeros, the six characters after 9 as ten to fifteen, a bare sign after $ or alone) is read as its positional value with its sign |
| AsmNumbers.LooseNumbers | SubProjects/FAsm/src/fa.c:588-660 | instances outside the grammar: $-, -, 1-2 and $: are numbers, #- and %- are not |
| AsmSymbolFile.SymbolFileRoundTrip | SubProjects/FAsm/src/fa.c:790-798 | scanning the .def lines dumped for a table of at most 1024 identifier-like upper-case names rebuilds the table in order |
| AsmSymbolFile.DumpStrips | SubProjects/FAsm/src/fa.c:1913-2001 | a dumped line survives remark removal and stripping, in upper case |
| AsmSymbolFile.DefParses | SubProjects/FAsm/src/fa.c:1690-1771 | and parses as .DEF of that name and number |
| AsmSymbolFile.HexValue | SubProjects/FAsm/src/fa.c:600-660 | four hexadecimal digits of a value read back as the value |
| AsmMachine.Assembler.Find | SubProjects/FAsm/src/fa.c:772-788 | first symbol of that name |
| AsmMachine.Assembler.Add | SubProjects/FAsm/src/fa.c:805-822 | appends a symbol, or fails at 1024 |
| AsmMachine.Assembler.ReadDigitLoop | SubProjects/FAsm/src/fa.c:641-660 | the digit loop, minus signs included |
| AsmMachine.Assembler.ReadWord | SubProjects/FAsm/src/fa.c:550-679 | number, quoted character or symbol value, or which error |
| AsmMachine.Assembler.ReadOrigin | SubProjects/FAsm/src/fa.c:1775-1818 | the .org target: not negative, at most 65535 |
| AsmMachine.Assembler.ScanLine | SubProjects/FAsm/src/fa.c:2152-2183 | address, table and error of the first pass on one line |
| AsmMachine.Assembler.EmitWord | SubProjects/FAsm/src/fa.c:893-903 | low byte, then high byte |
| AsmMachine.Assembler.EmitCharacters | SubProjects/FAsm/src/fa.c:1574-1606 | one byte for each character of the string |
| AsmMachine.Assembler.EmitPadding | SubProjects/FAsm/src/fa.c:1820-1857 | 0xAA padding and a flush |
| AsmMachine.Assembler.EmitValues | SubProjects/FAsm/src/fa.c:1611-1659 | signed and unsigned bytes; one that does not fit ends the line, one that cannot be read is passed over |
| AsmMachine.Assembler.EmitInstruction | SubProjects/FAsm/src/fa.c:2076-2109 | the generator's words, its address, and the error and delta checks |
| AsmMachine.Assembler.CheckLabel | SubProjects/FAsm/src/fa.c:855-889 | the first symbol of that name has the current address |
| AsmMachine.Assembler.AssembleLine | SubProjects/FAsm/src/fa.c:2152-2183 | address, requests to the hex writer and error of the second pass on one line |
| AsmMachine.Assembler.Assemble | SubProjects/FAsm/src/fa.c:2118-2201 | both passes over the source: the text and the table of the specification, or failure exactly when it fails |
| AsmParser.StripRemarks | SubProjects/FAsm/src/fa.c:1913-1942 | the line up to the first ; outside double quotes |
| AsmParser.Strip | SubProjects/FAsm/src/fa.c:1953-2001 | upper case outside quotes, no white space at either end; fails on an open quote |
| AsmParser.WordEnd | SubProjects/FAsm/src/fa.c:690-695 | first white space from there on |
| AsmParser.SpacesEnd | SubProjects/FAsm/src/fa.c:705-714 | first character that is not white space |
| AsmParser.TakeWord | SubProjects/FAsm/src/fa.c:727-756 | the characters before the separator and how many; an empty word and the maximum when it does not fit |
| AsmParser.FindColon | SubProjects/FAsm/src/fa.c:1881-1894 | a colon before the first white space |
| AsmParser.SplitWords | SubProjects/FAsm/src/fa.c:2203-2238 | at most six words, none of 32 characters or more; fails otherwise |
| AsmParser.ReadValues | SubProjects/FAsm/src/fa.c:1622-1656 | the values after .B up to the end of the line |
| AsmParser.ReadStr | SubProjects/FAsm/src/fa.c:1574-1606 | the characters between the quotes, or an error |
| AsmParser.ReadDef | SubProjects/FAsm/src/fa.c:1690-1771 | symbol and number of .DEF, or an error |
| AsmParser.ReadDirective | SubProjects/FAsm/src/fa.c:2006-2040 | which directive, with its operands |
| AsmParser.ReadLine | SubProjects/FAsm/src/fa.c:2152-2183 | label, directive, instruction or nothing |
| HexRoundTrip.RoundTrip | SubProjects/FPEmu/src/fpemu.c:624-674 | for every sequence of pushed bytes, flushes and flush-and-set-start inside the address space, loading the written text puts each byte at its logical address |
| HexRoundTrip.ImageByte | SubProjects/FAsm/src/fa.c:412-449 | in that image the last byte placed at an address is the one that stays, and an address no byte was placed at keeps what it had |
| HexRoundTrip.RecordSums | SubProjects/FAsm/src/fa.c:365-384 | the bytes of every record, checksum included, read back two digits at a time, sum to 0 modulo 256 |
| HexRoundTrip.EndOfFileSums | SubProjects/FAsm/src/fa.c:390-393 | the end-of-file record reads back as no bytes, address 0, type 1, and its bytes sum to 0 modulo 256 |
| HexRoundTrip.FullRecord | SubProjects/FAsm/src/fa.c:422-435 | a record of sixteen bytes is written when the sixteenth is pushed, and not before |
| HexRoundTrip.OtherLine | SubProjects/FPEmu/src/fpemu.c:624-674 | the loader passes over lines that are no records, and records of a type other than 0 and 1 |
| HexRoundTrip.ShortRecord | SubProjects/FPEmu/src/fpemu.c:624-674 | a record of fewer than ten characters ends the loading without success; what was loaded before it stays |
| HexRoundTrip.NothingBehind | SubProjects/FPEmu/src/fpemu.c:624-674 | nothing is read behind the end-of-file record |
| HexRoundTrip.DigitsWritten | SubProjects/FAsm/src/fa.c:365-384 | records are written in the digits 0 to 9 and A to F, most significant first |
| HexRoundTrip.RecordBytes | SubProjects/FAsm/src/fa.c:365-384 | a record read back is count, address, type 0, data and checksum |
| HexRoundTrip.LoadRecord | SubProjects/FPEmu/src/fpemu.c:640-666 | loading one record puts its bytes at its address when they stay in memory |
| HexOutput.HexWriter.WriteDataBytes | SubProjects/FAsm/src/fa.c:365-384 | appends exactly one record for the first n buffered bytes, digits and running 8-bit sum |
| HexOutput.HexWriter.WriteEndOfFile | SubProjects/FAsm/src/fa.c:390-393 | appends the end-of-file record |
| HexOutput.HexWriter.SetStartAddress | SubProjects/FAsm/src/fa.c:412-417 | new start address, pending bytes dropped |
| HexOutput.HexWriter.PushByte | SubProjects/FAsm/src/fa.c:422-435 | one more pending byte; the sixteenth writes a record and moves the address on |
| HexOutput.HexWriter.FlushBytes | SubProjects/FAsm/src/fa.c:438-449 | pending bytes written as one record, nothing written when there are none |
| CpuTheorem.FromReset | SubProjects/FPEmu/src/fpemu.c:83-123 | from reset at 0xF000 with empty stacks, for every program image and number of steps: the data and temporary stacks have at most 16 cells and the others at most 32, and while the processor keeps going there has been no exception and every stack has room |
| CpuTheorem.RunOk | SubProjects/FPEmu/src/fpemu.c:177-594 | the same invariant from any state that has it |
| CpuTheorem.StepOk | SubProjects/FPEmu/src/fpemu.c:179-594 | one instruction keeps it |
| CpuTheorem.LoadExecutes | SubProjects/FPEmu/src/fpemu.c:280-302 | the two words of the LD macro push exactly the 16-bit value on the decoded stack and leave the others, the output and the run alone |
| CpuTheorem.LetterReaches | SubProjects/FAsm/src/fa.c:501-515 | the two words an LD is assembled to, run, push the value on the stack the emulator gives that number: D and T reach their own, LD C reaches the return stack and LD R the control stack; on no other letter is the named stack the one that changes |
| CpuTheorem.BranchExecutes | SubProjects/FPEmu/src/fpemu.c:197-218 | a taken BIF goes to its label if and only if the signed 16-bit distance is in [-2048, 2047] |
| CpuTheorem.EnterExecutes | SubProjects/FPEmu/src/fpemu.c:185-196 | ENTER goes to its label and pushes the address of the next instruction |
| CpuTheorem.AssembledBranch | SubProjects/FPEmu/src/fpemu.c:197-218 | assembler, loader and emulator together: an assembled, loaded and taken BIF goes to the address of the byte after its label exactly when the label is near enough |
| CpuTheorem.AssembledCall | SubProjects/FPEmu/src/fpemu.c:185-196 | the same for ENTER, at any distance |
| CpuTheorem.AssembledLoad | SubProjects/FPEmu/src/fpemu.c:280-302 | the same for LD: two steps on, the value of its operand is on the stack the letter reaches, nothing else has changed, and the next instruction is the next line's |
| CpuOperators.AssembledOperator | SubProjects/FPEmu/src/fpemu.c:303-521 | assembler, loader and emulator together, for the eighteen operators: ADD and MUL leave sum and product modulo 64K; EQ and the eight orders leave 0xFFFF or 0 as the order holds on the integers, signed or unsigned; AND, OR and XOR hold bit by bit; LSL and LSR multiply and divide the lower value by two to the power of the upper, ASR the signed one |
| CpuOperators.OperatorComputes | SubProjects/FPEmu/src/fpemu.c:303-521 | the code the assembler gives an operator makes the emulator compute what the mnemonic says of the two values |
| CpuOperators.AssembledUnary | SubProjects/FPEmu/src/fpemu.c:522-545 | NEG, assembled and executed, inverts the bits and NOT negates: neither ever does what its name says |
| CpuOperators.AssembledDrop | SubProjects/FPEmu/src/fpemu.c:243-257 | DROP takes the top of the stack its letter reaches |
| CpuOperators.AssembledDup | SubProjects/FPEmu/src/fpemu.c:258-262 | DUP doubles it |
| CpuOperators.AssembledSwap | SubProjects/FPEmu/src/fpemu.c:263-268 | SWAP exchanges the two top values of the stack its letter reaches |
| CpuOperators.AssembledMove | SubProjects/FPEmu/src/fpemu.c:269-275 | MOV takes the top of its first stack to its second, which may be the same |
| CpuOperators.UnknownStack | SubProjects/FAsm/src/fa.c:501-515 | DROP, DUP and SWAP of a letter that names no stack are not rejected but assembled as MOV T D |
| CpuOperators.AssembledRead | SubProjects/FPEmu/src/fpemu.c:546-570 | RD B and IRD B read a byte of memory; with any other size RD and IRD are illegal |
| CpuOperators.AssembledStore | SubProjects/FPEmu/src/fpemu.c:456-484 | ISTO B with port 0 below its value writes the value's low byte out; STO, and other sizes, are illegal |
| CpuOperators.AssembledControl | SubProjects/FPEmu/src/fpemu.c:219-242 | NOP goes on 4 bytes further, LEAVE 2 bytes behind the address it pops, HALT stops, RESET is illegal |
| CpuOperators.AssembledLow | SubProjects/FPEmu/src/fpemu.c:280-289 | LDL pushes its number, at most 1023, on the stack its letter reaches |
| CpuOperators.AssembledHigh | SubProjects/FPEmu/src/fpemu.c:290-302 | LDH sets, in the top value of that stack, the bits of its number from bit ten on, and no others |
| CpuExceptions.FullLoad | SubProjects/FPEmu/src/fpemu.c:83-91 | the value that fills a stack of 16 or 32 cells is still stored, and stops the processor with an overflow |
| CpuExceptions.EmptyDrop | SubProjects/FPEmu/src/fpemu.c:93-103 | nothing comes off an empty stack, and that stops the processor with an underflow |
| CpuExceptions.EmptyOperator | SubProjects/FPEmu/src/fpemu.c:303-521 | an operator takes 0xDEAD for a value that is not there, and its result is pushed before the processor stops |
| CpuExceptions.SingleStep | SubProjects/FPEmu/src/fpemu.c:583-593 | in single-step mode the processor performs the same instruction, and then stops |
| CpuMachine.Machine.constructor | SubProjects/FPEmu/src/fpemu.c:107-123 | reset state on fresh stacks |
| CpuMachine.Machine.Push | SubProjects/FPEmu/src/fpemu.c:83-91 | one more value; overflow when the stack has become full; the index is inside the array |
| CpuMachine.Machine.Pop | SubProjects/FPEmu/src/fpemu.c:93-103 | the top value, or underflow and 0xDEAD |
| CpuMachine.Machine.GetStack | SubProjects/FPEmu/src/fpemu.c:128-152 | the stack of that id |
| CpuMachine.Machine.RunEnter | SubProjects/FPEmu/src/fpemu.c:185-196 | the return stack gets pc+2 and pc becomes four times the low fourteen bits |
| CpuMachine.Machine.RunBranch | SubProjects/FPEmu/src/fpemu.c:197-218 | pops; 0 adds the signed twelve-bit offset to pc, anything else (0xDEAD on underflow) goes to the next instruction |
| CpuMachine.Machine.RunControl | SubProjects/FPEmu/src/fpemu.c:219-242 | NOP, LEAVE and HALT, each adding 2 once more than it should |
| CpuMachine.Machine.RunStackWords | SubProjects/FPEmu/src/fpemu.c:243-279 | DROP, DUP, SWAP, MOV through pointers that may be the same stack |
| CpuMachine.Machine.RunLoadLow | SubProjects/FPEmu/src/fpemu.c:280-289 | the low ten bits are pushed on the stack the instruction names |
| CpuMachine.Machine.RunLoadHigh | SubProjects/FPEmu/src/fpemu.c:290-302 | the top of that stack gets the low six bits or-ed in above bit ten |
| CpuMachine.Machine.RunTwoValues | SubProjects/FPEmu/src/fpemu.c:303-521 | two cells come off the data stack and the operator's result goes on, except STO, which writes a byte to port 0; unknown functions stop with an exception and pop nothing |
| CpuMachine.Machine.RunOneValue | SubProjects/FPEmu/src/fpemu.c:522-580 | NEG, NOT, or RD of one byte of memory; anything else stops with an exception |
| CpuMachine.Machine.Turn | SubProjects/FPEmu/src/fpemu.c:179-593 | one instruction fetched at pc and performed; single-step mode stops after it |
| CpuMachine.Machine.RunLoop | SubProjects/FPEmu/src/fpemu.c:177-594 | turns until the processor stops, at most n; the run invariant holds throughout |
| CpuMachine.Machine.LoadHex | SubProjects/FPEmu/src/fpemu.c:624-674 | the loaded memory and result of the specification, line by line, where no byte goes outside |
| ByteStructure.CompileBody | SubProjects/CF_Forth/src/instructions.c:418-477 | for every well-nested body of words, numbers, IF/ELSE/THEN and BEGIN/AGAIN, feeding its tokens to the back-patching words leaves exactly the byte code of its structure at HERE, control and data stack as they were, and no other byte changed but HERE and free stack space |
| ByteRun.RunBody | SubProjects/CF_Forth/src/fcore.c:133-143 | the inner interpreter on the code of a body, in any state and whatever words the body names, realises the structured meaning exactly: it is in the very state of the result when the body ends, is left by LEAVE or does what structure does not account for, stops where the meaning stops, and is still inside the code or deeper after `fuel` steps when the fuel runs out |
| ByteRun.RunCode | SubProjects/CF_Forth/src/fcore.c:133-143 | the same for any byte code that stands in code, EXECUTE and LEAVE included |
| ByteRun.RunCall | SubProjects/CF_Forth/src/instructions.c:124-139 | a called body runs one return level deeper and comes back behind the call |
| ByteRun.RunLoop | SubProjects/CF_Forth/src/instructions.c:418-439 | BEGIN ... AGAIN runs its body again from its NOP, and never comes to its end |
| ByteEffect.BodyAgrees | SubProjects/CF_Forth/src/fcore.c:133-143 | the meaning on whole states refines a meaning on lists of values alone, for every body of words that only use the data stack, calls, branches, loops and EXECUTE of any of those |
| ByteEffect.DataEnds | SubProjects/CF_Forth/src/instructions.c:143-400 | what each byte code of the data stack does to the list of its values, guards included: DUP, DROP, SWAP, OVER, +, =, @, HERE, BL and the others |
| ByteEffect.ExecuteEnters | SubProjects/CF_Forth/src/instructions.c:124-139 | EXECUTE of a colon word starts its code with the next byte's address on the return stack and the word taken from the data stack, or stops where the return stack is full |
| ByteEffect.ExecutePerforms | SubProjects/CF_Forth/src/instructions.c:124-139 | EXECUTE of a word of a byte code that only uses the data stack does to the other values what that byte code does, and goes on at the next byte |
| ByteEffect.EffectRuns | SubProjects/CF_Forth/src/fcore.c:133-143 | so the run of the code of a body ends with the list its list semantics gives, or returned with it, and with memory below the stacks as it was, or fails where that fails |
| ByteTheorem.DefineWord | SubProjects/CF_Forth/src/instructions.c:512-561 | `: name body ;` links one new word whose code is that of its body, under the entry made at HERE, and every older word keeps its meaning |
| ByteTheorem.DefinedWordMeans | SubProjects/CF_Forth/src/fcore.c:133-143 | a word defined by the compiler and called later, in any state that still holds the dictionary, does what its source means, and comes back behind the call |
| ByteTheorem.Adequacy | SubProjects/CF_Forth/src/fcore.c:133-143 | the code of a body for which structure accounts first arrives at its end in a given state if and only if the source means that state |
| ByteTheorem.Divergence | SubProjects/CF_Forth/src/fcore.c:133-143 | a body whose meaning needs ever more fuel keeps the machine inside its code, or deeper, for every number of steps |
| ByteInterpret.InterpretTokens | SubProjects/CF_Forth/src/ff.c:27-93 | the words from which main compiles INTERPRET are the tokens of one structured loop |
| ByteInterpret.InterpretCompiled | SubProjects/CF_Forth/src/ff.c:95-118 | so the code that main compiles INTERPRET to is the code of that structure |
| ByteInterpret.InterpretRuns | SubProjects/CF_Forth/src/fcore.c:133-143 | and run, in any state that holds the dictionary, it realises the meaning of that loop and never comes to its end |
| ByteStorage.StoreShown | SubProjects/CF_Forth/src/instructions.c:390-396 | `!` stores the top value at the address below it and changes no other byte; @ of that address then gives the value |
| ByteStorage.AllotMoves | SubProjects/CF_Forth/src/instructions.c:94-100 | ALLOT moves HERE on by the value it takes, modulo 64K, and changes nothing else |
| ByteStorage.ColonWrites | SubProjects/CF_Forth/src/instructions.c:534-561 | `:` writes a header at HERE with the name it has read, its count before and a NUL behind it, off the chain, and turns STATE on |
| ByteStorage.SemicolonWrites | SubProjects/CF_Forth/src/instructions.c:512-532 | `;` links that header, lays LEAVE, makes HERE even and turns STATE off, and changes nothing else above the variables |
| ByteTurnEnds.SystemWorks | SubProjects/CF_Forth/src/ff.c:95-118 | in the system that main starts, the code of the 34 words and of STATE is where the dictionary says, and the code of one turn stands behind the first byte of INTERPRET |
| ByteTurn.TurnHandles | SubProjects/CF_Forth/src/ff.c:27-93 | a turn that reads a name comes to the byte code that handles it, with the name read, the stack that was there and nothing else changed: for an entry that FIND2 answers, to COMPILE, if it is not immediate while STATE is on and to EXECUTE in every other case; for a number to LITERAL, or past its end with the number on the stack while STATE is off; and for a name that is neither the system stops |
| ByteTurnEnds.TurnCompiles | SubProjects/CF_Forth/src/ff.c:27-93 | while STATE is on a turn whose name is an entry that is not immediate, a number or an immediate IF, ELSE, THEN, BEGIN or AGAIN does with the half-built definition exactly what the compiler does with that token |
| ByteTurnEnds.TurnRefills | SubProjects/CF_Forth/src/ff.c:27-93 | with nothing left of the line a turn makes the next line the input, with the stack that was there, and stops where there is none |
| ByteTurnEnds.TurnDrops | SubProjects/CF_Forth/src/ff.c:27-93 | with only white space left a turn drops the empty name and ends with the stack that was there |
| ByteStorage.AnswersLeft | SubProjects/CF_Forth/src/instructions.c:180-332 | FIND2 and (NUMBER) take two cells and leave the two of the answer |
| ByteAnswers.FindsNewest | SubProjects/CF_Forth/src/fcore.c:189-208 | FIND2 answers the newest entry on the chain that bears the name, in either case of its letters, with 1 if it is immediate and -1 if not, and the address with 0 exactly when no entry bears it |
| ByteAnswers.NumberAnswered | SubProjects/CF_Forth/src/instructions.c:223-331 | (NUMBER) answers k exactly for a quoted character of that signed code and for a numeral, in base ten unless it has a radix sign, of that value modulo 64K, and the address with 0 for everything else |
| ByteStorage.AcceptReads | SubProjects/CF_Forth/src/instructions.c:608-614 | (ACCEPT) puts the next line, newline included, into the input buffer and leaves the later lines; of a longer line it takes 254 characters; of the index only the low byte is reset |
| ByteStorage.ParseReads | SubProjects/CF_Forth/src/instructions.c:486-509 | PARSE-NAME delivers the next maximal run of characters that are not white space and goes on behind it |
| ByteTermination.Terminates | SubProjects/CF_Forth/src/fcore.c:133-143 | every definition of such a program, entered with any return stack and with room for what its COMPILE, LITERAL and `:` lay, comes back to its caller or stops at a stack assertion, at (HALT) or at the end of the input, within a number of steps fixed by its code, whatever FIND2 and (NUMBER) answer |
| ByteTermination.OneStep | SubProjects/CF_Forth/src/fcore.c:133-143 | each step makes the measure smaller, summed over the current definition and all waiting callers, and keeps the room, or is the LEAVE of the call |
| ByteTermination.QuietCost | SubProjects/CF_Forth/src/fcore.c:133-143 | definitions without COMPILE, LITERAL and `:` need no room |
| ByteDefine.Defines | SubProjects/CF_Forth/src/instructions.c:441-561 | a definition whose control words nest back to where they started, with room for its header and code, built from byte codes, numbers, IF, ELSE, THEN and known definitions, is linked, has only forward jumps and calls to older definitions, and joins the program of definitions that always end, whatever else is in the dictionary |
| ByteDefine.AnyDefinition | SubProjects/CF_Forth/src/instructions.c:418-561 | with room, a definition of any tokens, BEGIN ... AGAIN, EXECUTE and unknown words included, is linked whatever it leaves open, or stops where the control stack runs empty or full; every older definition stays sound, the addresses left on the control stack are inside the new code, and the system is as between definitions if and only if none is left |
| ByteDefine.OpenIf | SubProjects/CF_Forth/src/instructions.c:441-561 | `: X IF ;` is accepted: X is linked, its code is a jump to 0xDEAD on 0 and the LEAVE after it, and the operand's address stays on the control stack |
| ByteDefine.OpenIfJumps | SubProjects/CF_Forth/src/fcore.c:133-143 | run with 0 on the stack that code goes to 0xDEAD, with any other value to its LEAVE |
| ByteDefine.WordTerminates | SubProjects/CF_Forth/src/fcore.c:133-143 | every colon word that starts a known definition terminates, always when no known definition lays code |
| ByteDefine.OneToken | SubProjects/CF_Forth/src/instructions.c:102-122 | each compiling word keeps a half-built definition of that kind: one more instruction, open jumps on the control stack, older code untouched |
| ByteCompile.AnyToken | SubProjects/CF_Forth/src/instructions.c:418-477 | any token at all keeps what is older than the definition and the control stack inside it |
| ByteDefine.TokensDepth | SubProjects/CF_Forth/src/instructions.c:418-477 | with a cell free the tokens of a definition are compiled if and only if their control words nest in order and not too deep, and the control stack tells the nesting |
| ByteDefine.SemicolonLinks | SubProjects/CF_Forth/src/instructions.c:512-532 | `;` adds one definition and links its header |
| ByteDefine.ColonOpens | SubProjects/CF_Forth/src/instructions.c:534-561 | with room for the header `:` starts a row of instructions under a header that is not on the chain |
| ByteBootstrap.Started | SubProjects/CF_Forth/src/ff.c:95-118 | the system as main starts it: 34 byte-code words, STATE and INTERPRET fit; INTERPRET, which never ends, is on the chain and no known definition, STATE is one, and every word of a plain byte code may be named in more |
| ByteBootstrap.AddWordReady | SubProjects/CF_Forth/src/fcore.c:267-285 | byte-code words added to the dictionary keep it sound |
| ByteBootstrap.AddVariableReady | SubProjects/CF_Forth/src/fcore.c:230-256 | a variable is a definition that ends: LDN location LEAVE |
| ByteBootstrap.JumpByName | SubProjects/CF_Forth/src/instructions.c:403-406 | the limit of the promise: JMP, named like any word, lays no operand, and the word compiled by `:`, JMP NOP DUP and `;` with its code at 0x0C12 runs for ever |
| ByteBootstrap.NamedCode | SubProjects/CF_Forth/src/instructions.c:102-122 | COMPILE, of a word of a byte code lays just the code |
| ByteMachine.ByteForth.constructor | SubProjects/CF_Forth/src/fcore.c:99-126 | reset state: empty stacks, empty dictionary of the kind above |
| ByteMachine.ByteForth.Push | SubProjects/CF_Forth/src/fcore.c:41-50 | stores and moves on; full is the precondition |
| ByteMachine.ByteForth.Pop | SubProjects/CF_Forth/src/fcore.c:26-39 | the cell below; empty is the precondition |
| ByteMachine.ByteForth.InstrCompile | SubProjects/CF_Forth/src/instructions.c:102-122 | the byte code, or ENTER and the start of the code |
| ByteMachine.ByteForth.InstrLiteral | SubProjects/CF_Forth/src/instructions.c:572-583 | LDN and the value |
| ByteMachine.ByteForth.InstrIf | SubProjects/CF_Forth/src/instructions.c:441-452 | JMP_FALSE with an open operand |
| ByteMachine.ByteForth.InstrElse | SubProjects/CF_Forth/src/instructions.c:454-466 | closes the open jump after the JMP it lays open |
| ByteMachine.ByteForth.InstrThen | SubProjects/CF_Forth/src/instructions.c:468-477 | closes the open jump at a NOP |
| ByteMachine.ByteForth.InstrSemicolon | SubProjects/CF_Forth/src/instructions.c:512-532 | links the entry, LEAVE, alignment, interpreting |
| ByteMachine.ByteForth.InstrColon | SubProjects/CF_Forth/src/instructions.c:534-561 | header with the parsed name, not linked, compiling |
| ByteMachine.ByteForth.InstrBegin | SubProjects/CF_Forth/src/instructions.c:418-426 | HERE on the control stack and a NOP laid |
| ByteMachine.ByteForth.InstrAgain | SubProjects/CF_Forth/src/instructions.c:428-439 | JMP back to the popped address |
| ByteMachine.ByteForth.InstrStore | SubProjects/CF_Forth/src/instructions.c:390-396 | the value at the address |
| ByteMachine.ByteForth.InstrAllot | SubProjects/CF_Forth/src/instructions.c:94-100 | HERE moved on by the popped cell |
| ByteMachine.ByteForth.InstrParseName | SubProjects/CF_Forth/src/instructions.c:486-509 | address and length of the next name, index moved on |
| ByteMachine.ByteForth.PutCode | SubProjects/CF_Forth/src/fcore.c:331-339 | the text in the input buffer, its count, and the low byte of the index reset |
| ByteMachine.ByteForth.InstrAccept | SubProjects/CF_Forth/src/instructions.c:608-614 | the next line of the input, at most 254 characters, in the input buffer |
| ByteMachine.ByteForth.InstrExecute | SubProjects/CF_Forth/src/instructions.c:124-139 | performs a byte code and goes on at the next byte, or calls a colon word |
| ByteMachine.ByteForth.FindWord | SubProjects/CF_Forth/src/fcore.c:189-208 | the loop finds the newest entry of that name; 0 when there is none |
| ByteMachine.ByteForth.Answer | SubProjects/CF_Forth/src/instructions.c:180-331 | what FIND2 and (NUMBER) push |
| ByteMachine.ByteForth.Dispatch | SubProjects/CF_Forth/src/instructions.c:10-48 | the routine of every byte code of the table |
| ByteMachine.ByteForth.Turn | SubProjects/CF_Forth/src/fcore.c:133-143 | the byte code at ip performed |
| ByteMachine.ByteForth.InnerInterpreter | SubProjects/CF_Forth/src/fcore.c:133-143 | n turns of the loop |

## Left out

- Output, terminal and files: what `.`, EMIT and DECOMPILE print, listing and symbol file output as files, `printf`, the serial descriptors and the emulator's monitor. Terminal input is a sequence of characters in the state; QUERY takes its next line, a word at its end stops with `NoInput`.
- `'`, WHILE and REPEAT, which have no routine in the program's table.
- In the byte-code FORTH numbers and entries reach the compiler as tokens, and the theorems hold whatever FIND2 and (NUMBER) answer; `ByteAnswers.Real` is what they do answer. `ByteTurn` starts from the text, for the program's own answers.
- That INTERPRET's text reads as the tokens of `ForthBootstrap.Interpret`, comments, `'O'` and `0` included, and the byte-code one as those of `ByteBootstrap.Interpret`, is by inspection; `ForthInput.FindsAllWords`, `ForthMini` and `ForthInterpret` are what connects text, entries and compiler.
- Tokens of 127 characters and more, which overflow the signed length or the word buffer: reading one stops the model above 127.
- A list of entries that runs in a circle or above the stacks stops the model where the program would search for ever or outside.
- ForthMachine.Forth.AddDictEntry: the header must lie inside the array and above the system variables; elsewhere C leaves it undefined.
- ForthMachine.Forth.InstrColon: as AddDictEntry, and tokens of at most 127 characters.
- ForthMachine.Forth.InstrCreate: as InstrColon.
- ForthMachine.Forth.InstrQuery: asks that there is input; the original reads on at the end of its file and pastes whatever the buffer holds.
- ForthMachine.Forth.InstrDot: asks a value on the stack, a base other than 0, and with base 1 a value that is not positive, the states in which the original does not fail; what is printed is left out.
- ForthMachine.Forth.InstrDecompile: on code whose sweep ends before it has gone through memory, as compiled definitions' sweeps do; on other code the original may print on for ever.
- ForthMachine.Forth.Dispatch: opcodes beyond the table, and the three without a routine, are outside its precondition, and so are the states in which the word's own routine is.
- ForthMachine.Forth.InstrExecute: as Dispatch, for the word executed.
- ForthMachine.Forth.InnerStep: as Dispatch; a compiling word that would run into the stacks stops the specification.
- ForthMachine.Forth.InnerInterpreter: n turns; the original runs until BYE.
- ForthMachine.Forth.MiniInterpret: n turns; the original runs until its input ends.
- ForthBootstrap.Bootstrapped: asks that STATE starts as interpreting, because the original leaves it as it finds it in memory (`ForthMachine.Forth.constructor` says so); stops before INTERPRET is compiled, where `ForthBootstrap.Started` goes on.
- ForthBootstrap.Started: INTERPRET is compiled from its tokens; the dataspace after its text is pasted is a parameter that holds the core dictionary.
- ForthTheorem.Adequacy: for bodies that never go astray, for which `ForthOrderly.BodyOnCourse` and `CalmAdequacy` give conditions; with an empty return stack only where the recover address is outside the code, because ABORT would lead back into it.
- ForthInterpret.InterpretRuns: what a user's text makes INTERPRET do can go astray, by `!` into its own code for one; the turn theorems are about a turn that begins with dictionary and input sound.
- ForthInput.FindsAllWords: words of at most 126 characters and no NUL; FIND has a free cell and the chain of entries ends whenever it is performed.
- Numerals.NumbersRead: the base is any cell; characters above 127 are no digits, as in the program on a machine with signed characters.
- ByteAnswers.FindsNewest: texts without NUL and below 256 characters, of whose count the program looks at eight bits; on a chain that runs in a circle, where the program would search for ever, the answer is that there is no such word.
- CpuMachine.Machine.RunLoop: at most n turns; the original has no limit.
- CpuMachine.Machine.LoadHex: texts on which the original would read past a line or write past memory are outside its precondition; checksums are not verified, as in the original.
- CpuMachine.Machine.RunTwoValues: shifts by 16 and more are their mathematical value and a negative ASR gives 0; C leaves these undefined.
- CpuOperators.AssembledOperator: for shifts as RunTwoValues; ASR by a negative count has no law.
- CpuOperators.AssembledStore: the other sizes and STO stop with an exception, and what they leave on the data stack is not stated.
- AsmData.StringLoaded: sources whose bytes all lie in the address space, and without .w and .l.
- AsmData.ValuesLoaded: as StringLoaded.
- AsmData.PaddingLoaded: as StringLoaded.
- AsmSource.WordsLine: words of at most 31 characters with blanks, not tabs, between them; quoted characters as operands are not in its lines.
- AsmSource.DirectiveParses: as WordsLine; .W and .L, which the program does not implement, are not stated.
- AsmMachine.Assembler.Assemble: lines with an open quote are outside its precondition, because the original never gets past one; lines longer than the buffer are not cut.
- AsmNumbers.NumeralValue: values are unbounded integers; a numeral that overflows 64 bits is undefined in the original.
- AsmSymbolFile.SymbolFileRoundTrip: line by line; writing the lines to one file and splitting it again is not modelled.
- ByteTermination.Terminates: asks room between HERE and the stacks for what the word may lay there, because the original does not look and would write over its stacks; EXECUTE, `!` and backward jumps are not in its programs.
- ByteDefine.Defines: asks room for header and code, which the original never looks for and without which it writes over its stacks, and control words that nest; one that leaves an IF open is linked too (`ByteDefine.OpenIf`) and jumps to 0xDEAD, outside every definition (`ByteDefine.OpenIfJumps`).
- ByteDefine.AnyDefinition: asks room for header and code, as Defines.
- ByteDefine.ColonOpens: asks room for the header, as Defines.
- ByteStructure.CompileBody: asks room for the code, as Defines, and control words that nest no deeper than the control stack.
- ByteTheorem.DefineWord: asks room for header and code, as Defines.
- ByteTheorem.Adequacy: for bodies that never go astray, as ForthTheorem.Adequacy.
- ByteEffect.BodyAgrees: the list semantics says nothing of FIND2, (NUMBER), EXECUTE and the words that write to memory; their bodies are in ByteRun.RunBody.
- ByteTurn.TurnHandles: names below 256 characters, four free cells on the data stack, with fewer of which an assertion ends the program, and one on the return stack, which STATE needs.
- ByteTurnEnds.TurnCompiles: as TurnHandles; `;` and the other immediate words are left at EXECUTE, as TurnHandles says; says where the turn ends for tokens whose compilation leaves INTERPRET's own code alone.
- ByteStorage.AcceptReads: lines without NUL; of the input index only the low byte is reset, as in the program.
- ByteMachine.ByteForth.InstrColon: the header must lie inside the array and above the system variables.
- ByteMachine.ByteForth.InnerInterpreter: n turns; the original runs until (HALT).
- The disassembler, the hardware description and the remaining options of the programs.
