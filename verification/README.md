# A verified model of simbly

simbly runs many small assembly-like programs at once. Each program is a text file; an interpreter tokenizes it line by line, keeps its variables and labels in one table, and schedules it round-robin with others. All programs share global integer cells, which double as semaphores.

This project models the four cores of simbly - the scanner, the interpreter, the shared globals and the scheduler - and proves what they promise, each alone and all together.

## How the model is built

From the objects that work in place to the properties of the shipped programs, every level is proved against the next:

1. **Objects** (`Scanner.dfy`, `VarTable.dfy`, `GlobalTable.dfy`, `Program.dfy`, `Runtime.dfy`): classes with the fields, loops and arrays of the C code. `Scanner.Reader` walks through a file with one character of lookahead; `VarTable.Vars` keeps variables and labels in arrays that are grown in place; `GlobalTable.Table` holds the globals; `Program.Program` interprets a line; `Runtime.Runtime` keeps the ring. `RingRuns.Serve` lets a thread serve its whole ring, visit after visit, over programs that share nothing but the globals.
2. **Texts** (`Scanning.dfy`, `Tape.dfy`): what these objects compute, as functions of the unread text. `Program.InterpretNextLine` and `Runtime.VisitCurrent` are proved equal to them, and `RingRuns.Serve` to a run of the texts, turn by turn.
3. **Lines** (`Locals.dfy`, `Globals.dfy`, `Machine.dfy`): the interpreter on a list of parsed lines, any number of programs, any order of turns. `TextRuns.TextRunsAsLines` proves that running texts is running the lines that are written in them, whatever the layout.
4. **Locks** (`LockProtocol.dfy`, `Linearizability.dfy`, `LockedRuns.dfy`): the operations on globals as separate steps of two levels of locks. `LockedRuns.LockStepsAreTurns` and `LockedRuns.TurnsAreLockSteps` prove that programs whose operations are interleaved step by step have exactly the runs of the line machine, and `LockedTexts.LockStepsOnTexts` that programs interpreted from their texts have them too.
5. **Protocols** (`Buffer.dfy`, `Barbershop.dfy`): the shipped producer, consumer, barber and customer as moves of a protocol with an inductive invariant. `ProdCons`, `Barber` and `SumN` prove that the interpreter's steps are these moves; `ProdConsRuns`, `BarberRuns`, `Init` and `SumN` state the results for whole runs, and `LockedFifo` for runs in lock steps. `Progress`, `RingProgress` and `BarberProgress` add that things go on: items keep coming, under any fair order of turns and in the scheduler's ring, and every customer is served.

What the levels compute is pinned down apart from them: the language of operand words and of program lines as a grammar of its own (`OperandText.dfy`, `Grammar.dfy`, `Prints.dfy`, `Stops.dfy`), when operands have values and why they stop a program (`Evaluation.dfy`), and what each instruction does with them (`Meaning.dfy`). `Documented.dfy` runs the two programs of the project's own description from their texts.

Beside this chain stand writing and reading programs (`SourceText.dfy`, `Reformat.dfy`), lazy against static labels (`Labels.dfy`), local variables against their documentation (`LocalView.dfy`), conservation of semaphore units (`Conservation.dfy`), the ring and its order (`Scheduler.dfy`, `RingOrder.dfy`) and sleeping (`Sleep.dfy`).

Labels in the model keep their leading `L`, as they do in the source. Times are nanoseconds. A slice of time, and the CPU time a line takes, are parameters: any sequence of them is allowed.

## Where the code does less than it promises

Each of these is modelled as the code has it, with the exact condition proved.

- Reading an array beyond its end resets its old last cell, because the fill starts one cell too early (src/exec.c:174, src/exec.c:330): `LocalView.ReadCanErase`. A read is invisible exactly if `LocalView.ReadIsInvisible` says so. Nested reads can also return a wrong value, when an index erases the very cell that it then selects: with $a[0] set to 7, `$a[$a[3]]` is 0 (`LocalView.ClobberedReadIsWrong`). Exactly when is in `LocalView.ReadAgrees` for reading and `LocalView.WriteAgrees` for assigning.
- A backward jump to a label whose line was never entered or targeted stops the program for an undefined label (src/exec.c:746-792): `Labels.SkippedLabelIsLost`; exactly when, in `Labels.LazyIsStatic` and `Labels.MissedLabels`.
- A forward jump to a last line that is a bare PRINT ends the program without printing: the scan has already met the end of the file (src/scanner.c:862-865, src/exec.c:512): `Labels.FarewellIsNotPrinted`.
- A last line that is a PRINT with operands, and has a blank or a carriage return behind them, stops the program with an error instead of ending it (src/scanner.c:868-874): `SourceText.TrailingBlankIsRefused`; exactly then, in `SourceText.RoundTrip`.
- A SLEEP or a DOWN on a last line without a newline does not end the program as other instructions do there: it sleeps or waits, and is then stopped with an error at the end of the file (src/exec.c:512): `Stops.LineIsStepped`, `Stops.TextEnds`.
- With one barber and no more customers the barber sleeps for good (`BarberRuns.IdleForGood`), and only then nothing moves any more (`BarberRuns.OnlyIdleStops`). It always comes to that: `BarberProgress.EverybodyIsServed`.
- A producer cannot number more than 2^31 - 1 items: `ProdConsRuns.ItemsNumbered` counts them, and `ProdConsRuns.StopsExactly` proves that producers and consumers come to a stop exactly when every producer has run out of numbers. The sum of SumN leaves the range of an int for arguments above 65535: `SumN.SumsUp`.
- A word may have 126 characters, not 127, since the length is tested before the end of the word (src/scanner.c:137); the string of a PRINT may have 1022 (src/scanner.c:820). A lone `-` is read as 0.
- Any ninth character is accepted behind the magic word (src/scanner.c:372), and a wrong magic word is noticed only by the scheduler, after the program's first visit (src/scanner.c:374-396): `Scanner.Reader.ParseMagic` has both.

## Model

| member | source | states |
|---|---|---|
| ProdConsRuns.Fifo | test_programs/Producer.txt:10-20 | any number of producers and consumers, any buffer size from 1 on, any order of turns: the items loaded are a prefix of the items stored, at most the buffer size behind |
| ProdConsRuns.FifoAfterInit | test_programs/Init.txt:5-14 | the same when Init ran first, over any globals |
| ProdConsRuns.SlotSafety | test_programs/Consumer.txt:6-16 | a slot is written only after the item it held was loaded and read only after its item was stored; item t lives in slot t mod N |
| ProdConsRuns.Accounting | test_programs/Consumer.txt:6-16 | at every moment mtx and its holders make 1, free and full and those that owe them a unit make N, and none is negative |
| ProdConsRuns.MutualExclusion | test_programs/Producer.txt:12-18 | no two participants are between DOWN mtx and UP mtx |
| ProdConsRuns.DeadlockFree | test_programs/Producer.txt:10-20 | with a consumer and a producer that has stored fewer than 2^31 - 1 items, some turn always changes the state |
| ProdConsRuns.ItemsNumbered | test_programs/Producer.txt:6-14 | a producer's item number is the number of items it has stored, and one more while it has one in its hands; it overflows only when 2^31 - 1 are stored |
| ProdConsRuns.StopsExactly | test_programs/Consumer.txt:5-19 | with a consumer, no turn changes the state any more exactly if every producer has stored 2^31 - 1 items and gone on, all items are loaded, and every consumer waits for another |
| Progress.ItemsKeepComing | test_programs/Producer.txt:6-21 | from every reachable state, with a consumer, and an item in the buffer or a producer that has stored fewer than 2^31 - 1, another item is loaded within (d + 34)(N + m) + 1 rounds in which each of the m participants has a turn, d nanoseconds being the longest sleep |
| Progress.NoneComes | test_programs/Consumer.txt:5-19 | otherwise no item is ever loaded again |
| Progress.VisitRank | test_programs/Consumer.txt:5-19 | a visit that loads nothing brings its participant nearer to the buffer, sleeping included, or does nothing at all |
| RingProgress.ItemsKeepComingInRing | src/runtime.c:38-151 | as Progress.ItemsKeepComing, with laps of the scheduler's ring as rounds: for slices that are not empty, however many lines each visit interprets |
| RingProgress.LapIsRound | src/runtime.c:124-149 | as many visits in a row as the ring is long give everybody a turn |
| Init.LeavesEmptyBuffer | test_programs/Init.txt:5-14 | Init ends within 12 turns without an error and leaves mtx 1, free N, full, in and out 0 |
| Buffer.MoveKeepsInv | test_programs/Producer.txt:6-21 | each move of a producer or consumer keeps the balance of all semaphores, the positions of both ends and the contents of every slot between them |
| Buffer.NoDeadlock | test_programs/Consumer.txt:5-19 | in each state of the invariant a participant that can move is found |
| ProdCons.VisitSimulates | test_programs/Producer.txt:2-21 | every visit of the interpreter to a producer or consumer, ready, blocked or asleep, is one move of the protocol |
| BarberRuns.PickupsFollowArrivals | test_programs/Barber.txt:5-15 | avl is arrivals minus claims and at least -1; pickups trail claims by at most one and never exceed arrivals |
| BarberRuns.NoLostWakeup | test_programs/Customer.txt:2-11 | while the barber waits for sleep, the unit in it and the customers about to raise it make 1 if a customer waits and 0 otherwise; at other times there are none |
| BarberRuns.MutualExclusion | test_programs/Customer.txt:2-10 | one barber and any number of customers: at most one is in the mtx section |
| BarberRuns.OnlyIdleStops | test_programs/Barber.txt:5-18 | no turn changes the state any more exactly if all customers have left and the barber waits for one more |
| BarberRuns.IdleForGood | test_programs/Barber.txt:11-15 | from then on every further run leaves all as it is |
| BarberRuns.EmptyShopIdles | test_programs/Barber.txt:2-14 | the barber alone comes to that state in eleven turns |
| BarberProgress.EverybodyIsServed | test_programs/Customer.txt:2-11 | with any customers and from every reachable state, within a fixed number of rounds in which everybody who has not left has a turn, all customers have been picked up and have left, and the shop is idle |
| BarberProgress.VisitRank | test_programs/Barber.txt:5-18 | each visit brings its participant nearer to leaving or to the next claim, sleeping included, or does nothing at all |
| Barbershop.MoveKeepsInv | test_programs/Barber.txt:2-18 | each move keeps exclusion, the balance of avl, the count of wake-ups and what every participant remembers |
| Barber.VisitSimulates | test_programs/Customer.txt:2-11 | every visit of the interpreter to the barber or a customer is one move of the protocol |
| SumN.SumsUp | test_programs/SumN.txt:2-14 | for arguments 0 to 65535 the program ends within 4n + 8 turns and prints n(n+1)/2, all intermediate values being ints; for larger ones the sum overflows |
| Shipped.SumFromText | test_programs/SumN.txt:1-14 | the same for any file that carries these lines, interpreted from its text among any other programs |
| Shipped.FifoFromText | test_programs/Producer.txt:1-21 | files that carry producers and consumers, interpreted from their texts, have at every moment the globals and the output of a run of the lines, for which the items are first in, first out |
| Shipped.ShippedOpen | test_programs/Consumer.txt:1-19 | for any producers, consumers and arguments there are such files, which open and carry exactly these lines |
| Linearizability.Linearizable | src/global.c:58-304 | LOAD, STORE, UP, DOWN and the blocked attempt, as separate steps of lock, find, insert, unlock, lock, update, unlock by any number of threads, take effect one after the other: each reports what the atomic operation would, the variables hold what the sequence leaves, no operation counts twice |
| Linearizability.RealTime | src/global.c:58-304 | an operation that returned before another was called comes before it in that sequence |
| Linearizability.RefinesDefaultZero | src/global.c:200-304 | the answers and cells are those of arrays that are 0 everywhere and never need to be created or grown |
| Linearizability.CreatedOnce | src/global.c:66-114 | a name is given at most one variable, which it keeps, and two names never share one |
| Linearizability.Exclusive | src/global.c:64-113 | at most one thread holds the table, and at most one the mutex of each variable |
| Linearizability.GivesUpAfterWaiting | src/global.c:165-190 | an attempt to take a unit reports none only when it has waited, without any lock, since it was called |
| Linearizability.LocksNeverStick | src/global.c:58-190 | while an operation is under way, its thread's next step changes the state, or the next step of the thread that holds the lock it waits for, which waits for nobody |
| LockProtocol.UpdateIsAtomic | src/global.c:76-101 | the update of one variable under its mutex is the atomic operation on the globals, answer included |
| LockProtocol.MakingIsAtomic | src/global.c:104-113 | so is the insertion of a missing variable |
| LockProtocol.GoodKept | src/global.c:58-190 | every step of every thread keeps the locking discipline, the names, and the log of effects in step with the variables |
| LockedRuns.LockStepsAreTurns | src/global.c:58-304 | any programs, their LOAD, STORE, UP, DOWN and blocked attempts interleaved step by step: at every moment globals and programs are those of a run of the machine that does each visit at once, where an operation is the turn at which it takes effect |
| LockedRuns.TurnsAreLockSteps | src/global.c:58-304 | conversely, every run of that machine can be had in lock steps, each operation in at most seven of them |
| LockedRuns.RestIsMachine | src/exec.c:489-516 | whenever no operation is under way, cells and programs, their variables, output, status and errors, are literally those of that run |
| LockedRuns.VisitOperates | src/exec.c:545-835 | a visit that comes to LOAD, STORE, UP or DOWN, or to a parked program, does to the globals what that one operation does, and to the program what its answer says |
| LockedRuns.VisitIsLocal | src/exec.c:464-487 | any other visit neither reads nor changes globals |
| LockedRuns.StepMeans | src/global.c:64-113 | one lock step leaves all cells and answers alone, or is the whole operation and its answer |
| LockedFifo.FirstInFirstOut | test_programs/Producer.txt:10-20 | producers and consumers in lock steps: in the order in which operations on $buf take effect under their mutex, the items loaded are a prefix of those stored, at most N behind |
| LockedFifo.FromNothing | test_programs/Init.txt:5-14 | the same from an empty table on, with Init run first in lock steps as well |
| LockedTexts.LockStepsOnTexts | src/exec.c:489-516 | any files, interpreted from their texts, their operations on globals interleaved in lock steps: whenever none is under way, globals, variables, output, status and errors are those of a run of the texts in which each operation is one turn |
| LockedTexts.WishIs | src/exec.c:545-835 | a text asks for the operation that its next line asks for |
| LockedTexts.FirstInFirstOut | test_programs/Producer.txt:10-20 | producers and consumers from their texts and in lock steps: items come out as they went in |
| Conservation.Conserved | src/global.c:76-190 | over any run without a STORE to it, a cell changes by the UPs minus the grants |
| Conservation.ConservedSinceStore | src/global.c:253-304 | a cell equals the value last stored plus the UPs minus the grants since |
| Conservation.NeverNegative | src/global.c:165-190 | a cell never goes negative unless a negative value is stored |
| Conservation.AtMostKInside | src/global.c:165-190 | a cell that holds k and is used in DOWN/UP brackets admits at most k programs, less the units still in it |
| Conservation.VisitMoves | src/global.c:58-304 | one visit changes a cell as the store, the UP or the grant that happens in it says, and not at all otherwise |
| GlobalTable.GlobalVar.Up | src/global.c:76-101 | raises the cell in place, or grows the array with cells of 0 and sets the new one to 1 |
| GlobalTable.GlobalVar.Down | src/global.c:135-150 | makes sure that the cell exists and changes none |
| GlobalTable.GlobalVar.Load | src/global.c:218-240 | the cell, or 0 and the array grown |
| GlobalTable.GlobalVar.Store | src/global.c:271-291 | sets the cell, growing the array if necessary |
| GlobalTable.GlobalVar.Take | src/global.c:165-190 | takes a unit exactly if there is one |
| GlobalTable.Table.Up | src/global.c:58-114 | the table afterwards is that of the atomic operation, for a present and for a missing variable |
| GlobalTable.Table.Down | src/global.c:116-162 | the same for parking, which returns a variable in which the cell exists |
| GlobalTable.Table.StateBlocked | src/global.c:165-190 | a unit is taken at once if there is one; otherwise others go on during the wait, with any operations, and it is taken if there is one then |
| GlobalTable.Table.Load | src/global.c:200-251 | the same for LOAD, with its value |
| GlobalTable.Table.Store | src/global.c:253-304 | the same for STORE |
| Meaning.ArithMeans | src/exec.c:636-677 | for all operands that have values: ADD, SUB and MUL leave sum, difference and product in the destination if they are an int, DIV and MOD the quotient and the remainder that belong together and truncate toward zero; a zero divisor and everything outside an int is left open |
| Meaning.BranchMeans | src/exec.c:679-792 | every branch, for all operands that have values, jumps exactly on the right sign of their difference: behind the label where it is known, else to the next line that carries it, else it stops the program; otherwise it goes on with the next line |
| Meaning.BranchesComplement | src/exec.c:701-717 | on the same operands exactly one of BRLE and BRGT jumps, and of BRLT and BRGE; BREQ jumps exactly where BRLE and BRGE both do |
| Meaning.FirstFailureStops | src/exec.c:545-897 | operands are read in the order of the handlers; the first that cannot be read stops the program for its own reason, no global changes, and a PRINT shows the values it has |
| Meaning.SetMeans | src/exec.c:617-634 | the value arrives in the destination, or the program stops because it cannot be assigned |
| Meaning.LoadMeans | src/exec.c:545-579 | the cell's value arrives in the destination, no global changes |
| Meaning.StoreMeans | src/exec.c:581-615 | index first, then value: that cell has the value, no other changes |
| Meaning.UpMeans | src/exec.c:799-835 | that cell is 1 more, no other changes |
| Meaning.DownMeans | src/exec.c:799-835 | the program is parked at that cell, no cell changes |
| Meaning.GrantMeans | src/global.c:165-190 | a visit to a parked program takes 1 from a cell that has something, and only then lets it go on |
| Meaning.SleepMeans | src/exec.c:837-865 | a positive number of seconds is slept, exactly that many; otherwise the program goes on |
| Meaning.PrintMeans | src/exec.c:867-898 | text and all values are printed in order; a last line without operands ends the program |
| Meaning.LabelMeans | src/exec.c:435-475 | entering a line registers its label once; a second line with it stops the program |
| Evaluation.EvaluatesExactly | src/exec.c:69-246 | an operand has a value exactly if no level names a label or an array without an index and every index is in range; otherwise the reason is exactly the one given, labels first |
| Evaluation.ReadsArguments | src/exec.c:90-124 | `$argv[i]` is entry i + 2 of the vector of program number, count and arguments |
| Evaluation.AssignsExactly | src/exec.c:248-399 | numbers and arguments cannot be assigned; everything else exactly if it can be read, and is refused for the same reason |
| Evaluation.ReadSizes | src/exec.c:149-241 | reading makes every array as long as its highest index on the way needs, and no longer |
| Evaluation.WriteSizes | src/exec.c:300-396 | so does assigning |
| Syntax.TruncatesTowardZero | src/exec.c:664-669 | DIV and MOD give the one quotient and remainder that belong together, the remainder smaller than the divisor and with the sign of the dividend |
| LocalView.ReadEffect | src/exec.c:69-246 | what evaluating any nested operand does to every cell: the erased ones become 0, all others stay, no array shrinks |
| LocalView.ReadIsInvisible | src/exec.c:169-182 | a read leaves all cells alone exactly if no array is grown over a last cell in use |
| LocalView.ReadAgrees | src/exec.c:69-246 | an operand and all its indices have the values that a map that is 0 by default gives, exactly if no level reads a cell that its own index has erased |
| LocalView.ClobberedReadIsWrong | src/exec.c:174-182 | with $a[0] set to 7, `$a[$a[3]]` is read as 0 instead of 7 |
| LocalView.WriteAgrees | src/exec.c:248-399 | an assignment sets the cell that the map's evaluation addresses, and no other, exactly if its index reads no erased cell and it erases no cell but its own |
| LocalView.WriteEffect | src/exec.c:248-399 | what an assignment does to every cell |
| LocalView.WriteIsLocal | src/exec.c:326-343 | an assignment changes its own cell and no other exactly if it erases no other |
| LocalView.ReadCanErase | src/exec.c:174-175 | with $a[0] set to 7, reading $a[3] resets it |
| VarTable.Vars.GetValue | src/exec.c:69-246 | evaluation in place, through nested indices, argc and argv, labels and errors, leaves the table and the outcome of the model's evaluation |
| VarTable.Vars.SetValue | src/exec.c:248-399 | the same for assignment |
| VarTable.Vars.Grow | src/exec.c:169-182 | the grown array keeps its cells but the last and is 0 from there on |
| VarTable.Vars.InsertLabel | src/exec.c:435-462 | a label is noted once; the same position again is accepted, another one refused |
| Labels.LazyIsStatic | src/exec.c:723-793 | programs with unique labels, any order of turns: the run with lazy tables is the run with complete ones as long as, and only as long as, no turn misses a label or runs out of its file |
| Labels.InterpretSame | src/exec.c:464-516 | one line does the same with a lazy and with a complete table exactly if it neither misses a label nor runs out of the file |
| Labels.TableIsHistory | src/exec.c:464-475 | a label is in the table exactly if its line was entered or jumped to, and then at its defining line |
| Labels.MissedLabels | src/exec.c:746-792 | a jump misses exactly if its label stands on an earlier line that was never entered nor targeted |
| Labels.SkippedLabelIsLost | src/exec.c:746-792 | a program that is stopped for a label it defines |
| Labels.FarewellIsNotPrinted | src/exec.c:489-516 | a program whose last line is reached and not executed |
| OperandText.OperandLanguage | src/scanner.c:170-353 | a word is accepted as an operand exactly if it is in the language of spellings: names of up to 128 characters, numbers of up to nine, and `$n1[$n2[...core` with a first `]` and as many in all as brackets open |
| OperandText.SpellingUnique | src/scanner.c:251-274 | the spelling depends only on what stands before the first closing bracket |
| OperandText.TailIsOnlyCounted | src/scanner.c:263-274 | behind that bracket any other text with as many closing brackets is as good, and none with another number is |
| OperandText.PrintThenParse | src/scanner.c:187-346 | reading a printed operand gives it back, for names of up to 128 characters, numbers below 10^9, and negative ones above -10^8 outside brackets |
| OperandText.ParseThenPrint | src/scanner.c:187-346 | a word is printed as it was read exactly if its number is canonical and its tail is only `]` |
| Scanning.Lockstep | src/scanner.c:548-597 | the tokens of every accepted line are exactly those that the interpreter's handler takes: none is missing, of the wrong kind, or left over |
| Scanning.BranchIsNotLast | src/scanner.c:738-740 | a branch never counts as the last line |
| Grammar.LineLanguage | src/scanner.c:572-790 | a text is read as a line exactly if the words of its first line that is not blank say so in the grammar, nineteen names and all; reading stops at the end of that line |
| Grammar.InstructionNames | src/scanner.c:52-72 | the nineteen names mean these instructions, and no other word is an instruction |
| Grammar.OperandWords | src/scanner.c:170-353 | numbers and names as words: up to nine characters, and letters and digits behind a dollar sign |
| Grammar.CellWords | src/scanner.c:251-336 | a name with a number or a name in brackets is that cell |
| Grammar.UpLine | test_programs/Consumer.txt:14-16 | UP and $free with a tab in front of each are that instruction |
| Grammar.FirstLine | src/scanner.c:355-397 | which first lines open a file, where reading goes on, and which refuse it with or without an error |
| Prints.PrintLanguage | src/scanner.c:793-875 | a text is read as a PRINT exactly if a string of up to 1022 printable characters in quotes and then operands stand behind the name, and the file does not end right behind an operand |
| Stops.AcceptedExactly | src/scanner.c:572-597 | the tokenizer accepts exactly the lines of the language |
| Stops.NoLineStops | src/exec.c:464-516 | everything else stops the program with an error, without any other effect |
| Stops.TextEnds | src/exec.c:482-487 | where only white space is left the program ends; the end of the file itself, where a line is expected, stops it with an error |
| Stops.LastExactly | src/scanner.c:111-168 | a line other than a branch, a PRINT or a RETURN is the last exactly if the file ends right behind its last word |
| Stops.LineIsStepped | src/exec.c:464-516 | such a line is executed from its text, and ends the program if it is the last and the program could go on; one that sleeps or waits is not ended |
| Documented.FreshIsZero | README.md:13-20 | the first program of the description prints `val = 0` |
| Documented.GlobalsAreApart | README.md:24-34 | the second prints `x g = 15 0` and leaves a global g of 15 |
| SourceText.LineScanned | src/scanner.c:572-597 | a line in any layout is read as that line, from either of the places where the line before leaves the lookahead; the label's position is what stands behind it |
| SourceText.RoundTrip | src/scanner.c:572-597 | tokenizing a program written in any layout, with blank lines and trailing white space, gives exactly its lines, and fails exactly if a PRINT with operands dangles at the end |
| SourceText.TrailingBlankIsRefused | src/scanner.c:868-874 | `PRINT "x" $y` is read as a whole program, and refused with one blank behind it |
| SourceText.ReadingWrittenLines | src/scanner.c:793-875 | the same from any place that stands before the first line |
| Reformat.AcceptedWritable | src/scanner.c:548-597 | every line of every accepted program can be written: names, numbers, labels and strings are within their limits |
| Reformat.Reformatting | src/scanner.c:572-597 | an accepted program keeps its lines in any new layout, but for a dangling PRINT |
| Reformat.ParsedWritable | src/scanner.c:170-353 | an accepted operand is printable, and its print is no longer than the word limit |
| Scanner.Reader.NextChar | src/scanner.c:16-25 | advances the lookahead and counts lines, so that the line number is always that of the position |
| Scanner.Reader.FlushUpToChar | src/scanner.c:79-92 | moves on once and then over all white space |
| Scanner.Reader.FlushUpToNewline | src/scanner.c:94-109 | stops on the newline, at the end, or at a character that should not be there |
| Scanner.Reader.GetNextWord | src/scanner.c:111-165 | the word, the remaining text and the state that the model says, with the same-line test by line numbers and without overrunning the buffer |
| Scanner.Reader.ParseVarval | src/scanner.c:170-353 | the recursive parse in the buffer is the model's parse, for operands and for indices |
| Scanner.Reader.IsValidLabel | src/scanner.c:399-425 | accepts labels, refuses other words, and stops the program at ill-formed ones |
| Scanner.Reader.ParseMagic | src/scanner.c:355-397 | the first line is accepted, refused or refused with an error as the model says |
| Scanner.Reader.LoadStoreHandler | src/scanner.c:599-624 | two operands, the first not a number, and a blank rest |
| Scanner.Reader.SetHandler | src/scanner.c:626-658 | the same for SET |
| Scanner.Reader.PrimitiveOpHandler | src/scanner.c:660-701 | three operands, the first not a number |
| Scanner.Reader.BranchHandler | src/scanner.c:703-748 | two operands unless BRA, and a label |
| Scanner.Reader.SemaphoreHandler | src/scanner.c:750-773 | one operand that is not a number |
| Scanner.Reader.SleepHandler | src/scanner.c:775-791 | one operand |
| Scanner.Reader.PrintHandler | src/scanner.c:793-875 | a string, on this or a later line, and the operands on its line |
| Scanner.Reader.TokenizeNextLine | src/scanner.c:572-597 | the tokens, the state and the remaining text of the model's tokenizer |
| Program.Program.constructor | src/program.c:46-86 | a program whose file has been opened and its first line read |
| Program.Program.LoadHandler | src/exec.c:545-579 | reads its two tokens, evaluates the index, loads and assigns, as one step of the machine |
| Program.Program.StoreHandler | src/exec.c:581-615 | the same for STORE |
| Program.Program.SetHandler | src/exec.c:617-634 | the same for SET |
| Program.Program.PrimitiveOpHandler | src/exec.c:636-677 | the same for ADD, SUB, MUL, DIV and MOD, with C division |
| Program.Program.BranchHandler | src/exec.c:679-797 | the operands are compared and the jump is taken or not |
| Program.Program.FindLabel | src/exec.c:749-790 | the forward scan finds the first line with the label, tokenizing on until the text ends |
| Program.Program.Jump | src/exec.c:723-793 | a jump through the table or by scanning leaves table, position and state of the model's jump |
| Program.Program.DownHandler | src/exec.c:799-835 | parks the program at a cell that exists |
| Program.Program.UpHandler | src/exec.c:799-835 | evaluates the index and raises the cell |
| Program.Program.SleepHandler | src/exec.c:837-865 | sleeps for a positive number of seconds and goes on otherwise |
| Program.Program.PrintHandler | src/exec.c:867-898 | prints the string and the values up to the first that fails |
| Program.Program.ExecInstructionLine | src/exec.c:464-487 | enters the line's label and calls the handler, which leaves no token behind |
| Program.Program.InterpretNextLine | src/exec.c:489-516 | tokenizing and executing in place is one step of the interpreter on texts, with an empty token buffer afterwards |
| TextRuns.StepFollows | src/exec.c:489-516 | interpreting a line of text is interpreting that line, labels as file positions included |
| TextRuns.SeekLabelFinds | src/exec.c:749-790 | the forward scan over the text finds the first line with the label, and meets the end of the file exactly on a last bare PRINT |
| TextRuns.MagicAccepted | src/scanner.c:355-397 | the magic line, also with blanks or a carriage return behind it, leads to the first line |
| TextRuns.TextRunsAsLines | src/exec.c:489-516 | any files in any layout, any order of turns: globals, output, variables, status and errors are those of the run of their lines |
| Positions.SeekFinds | src/exec.c:733-738 | the position kept for a label is the text behind it, with the lookahead a blank |
| Positions.LeftsDiffer | src/exec.c:452 | labels on different lines have different positions |
| Scheduler.Integrity | src/runtime.c:124-199 | over any run of attachments and visits the counter is the length of the ring, the current program is in it, and each attached program is in it once or was retired once |
| Scheduler.StepWhole | src/runtime.c:124-149 | each event keeps that, and only a visit to a finished program retires one, namely that program |
| Scheduler.BoundedWaiting | src/runtime.c:38-151 | a program in the ring has its turn within as many visits as programs stand before it and are attached meanwhile, whatever is removed |
| Scheduler.WaitingShrinks | src/runtime.c:132-147 | visits so far plus the distance left never exceed the distance at the start plus the attachments |
| Sleep.SleepConserved | src/runtime.c:90-117 | a SLEEP d sleeps d seconds exactly, in at least 100d + 1 visits, and in at most d * 10^9 + 1 if no slice is empty |
| Sleep.SleepAccount | src/runtime.c:90-117 | at every visit the time slept and the time left make up the request, and the nanoseconds stay in range |
| RingOrder.FirstComeFirstListed | src/runtime.c:182-200 | over any run the ring lists the programs that are not retired in the order in which they were attached |
| RingOrder.ServedInOrder | src/runtime.c:38-151 | from any program on, those behind it are served in the order of the ring, then those attached on the way in the order in which they come, whichever of them finish |
| RingOrder.FirstComeFirstServed | src/runtime.c:24-36 | a thread that wakes up serves the programs in the order in which they were attached |
| Runtime.ServedIsTurns | src/runtime.c:56-89 | a visit is turns of one program in a row: one if it is not ready; otherwise lines exactly until the times measured for them make up the slice, the clock fails, or the program is not ready |
| Runtime.Runtime.AttachProgram | src/runtime.c:182-200 | appends at the tail and counts |
| Runtime.Runtime.MoveOn | src/runtime.c:124-149 | moves to the next program and takes a finished one out, the head included |
| Runtime.Runtime.Interpret | src/runtime.c:56-89 | at least one line, and more while there is time left and the program is ready |
| Runtime.Runtime.VisitCurrent | src/runtime.c:38-151 | one visit serves the current program as its state asks and leaves ring, globals and program as the model says |
| RingRuns.Boot | src/runtime.c:157-180 | a thread with an empty ring, and empty globals |
| RingRuns.Attach | src/runtime.c:182-200 | opening a file and attaching it leaves all programs where they are and adds one at the start of its text |
| RingRuns.VisitOnce | src/runtime.c:38-151 | one visit is exactly the turns of the current program that it has time for, moves on, takes out a finished program, and leaves all other programs, parked ones included, where they are |
| RingRuns.Serve | src/runtime.c:24-152 | visit after visit over the whole ring: programs and globals are afterwards where a run of the texts brings them, each visit with exactly the turns that it has time for, served in the order of the ring, finished programs taken out |

## Left out

- The shell, command parsing, `list` and `kill` (src/main.c), and all coloured, debug and error output: user interface. `kill` also overwrites a cell with 1, which conservation would not survive.
- The reader/writer and rendezvous programs: the writer does not take mtx again on one path (test_programs/Writer.txt:14-24), so that exclusion does not hold as written; the rendezvous is finite.
- libvoids, malloc and free, pthread and clock calls. Tables and lists are maps and sequences; the clock is a parameter.
- Growth of a global array calls `realloc` on the variable instead of its cells (src/global.c:84, src/global.c:137, src/global.c:225, src/global.c:278), and DOWN leaves the new cell unset (src/global.c:139-145). The model grows the cells and sets the new ones to 0.
- The build option that initialises semaphores with 1: cells start at 0, as in the default build.
- In an array operand the array is fetched before its index is evaluated, which may move it (src/exec.c:128-159). The model looks it up again after the index.
- A forward scan that ends without a token dereferences a null pointer (src/exec.c:752-759). The model stops the program for an undefined label, as the code does elsewhere (src/exec.c:783-789). If the line that carries the target label cannot be tokenized, only the error message differs.
- The scheduler tests for an empty ring after it has released its lock (src/runtime.c:138-142). The model removes and tests in one step.
- Behaviour that C leaves undefined - integer overflow, division by zero, a negative index of a global, `$argv` below -2, a number as global operand, a label whose name is a variable's - puts a program into a state of its own, in which it stays.
- Semaphore counts do not wrap around.
- Files are texts without NUL characters; every written line ends with a newline.
- The line and column bookkeeping is modelled as far as the same-line tests need it; columns are not, and the line number of a jump target is computed from its position instead of being stored with the label.
- Program.Program.constructor: reads the first line at once instead of at the first visit; what a program with a wrong magic word executes before the scheduler stops it is not modelled.
- Program.Program.WaitOn: a visit to a parked program tries with nobody in between. What others do during the timed wait of GlobalTable.Table.StateBlocked are turns before it; LockProtocol and LockedRuns prove that the whole visit is one turn, at its last attempt.
- Program.Program.FindLabel: a scan that meets the end of the file stops the program for an undefined label, where the code reads a token that is not there (src/exec.c:752-759).
- Runtime.Runtime.VisitCurrent: for a program that has done what C leaves undefined, leaves open whether it stays in the ring.
- RingRuns.Serve: one thread and its ring; several threads over the same globals are told of as turns and lock steps, not as objects.
