# Verification of the Bantu language and its WebSocket relay

This project models two parts of the repository and proves properties of them:

- the **Bantu language**: lexer, parser, evaluator with its scope chain and class graph, and the JSON
  printer and parser of its library (`bantu-src/compiler/src/`);
- the **relay** (`wsrelay.c`): WebSocket framing, SHA-1, base64, the scanners that read a posted message, and
  the connection table shared by the accept loop and the handlers. The second base64 encoder (`main.cpp`) and
  the port allocator (`server.hpp`) belong to it.

Check everything with `dafny verify dfyconfig.toml` (Dafny 4.11).

## How it is built

Code that works by changing things step by step is modelled as classes and methods with loops (`Lexing`,
`Parsing`, `Rendering`, `Evaluator`, `JsonReader`, `Base64`, `Sha1Program`, `WebSocket`, `Relay`, `RelayPorts`, `Scanner`,
`Text`). Each method is proved equal to a function of its inputs or of the old state, and the theorems are
about those functions. An exception, a loop that never ends and a dangling reference are outcomes of the
functions, not preconditions.

| part | modules |
|---|---|
| values used everywhere | `Options`, `Decimals`, `Slices`, `Bytes` |
| lexer | `Tokens`, `Scanning`, `Lexing`, `Layout` |
| parser | `Ast`, `Grammar`, `Parsing`, `Stalling`, `ElseIf` |
| printer and round trip | `Printing`, `ExpressionRoundTrip`, `StatementRoundTrip`, `ProgramRoundTrip`, `Image`, `Shortest` |
| evaluator | `Values`, `Environments`, `Classes`, `Rendering`, `Evaluation`, `Evaluator` |
| theorems about the evaluator | `Fuel`, `Termination`, `References`, `Scoping`, `ForLoops`, `ClassGraph`, `Laws`, `Receivers`, `Visits`, `Escapes`, `SuperCalls`, `ClassInConstructor`, `Recursion` |
| JSON and text of the library | `Json`, `JsonRoundTrip`, `JsonReader`, `Text` |
| relay, wire format | `Base64`, `Sha1`, `Sha1Program`, `Handshake`, `Framing`, `WebSocket` |
| relay, messages and connections | `Envelope`, `Extraction`, `EnvelopeRoundTrip`, `Scanner`, `RelayedMessage`, `ConnectionTable`, `Sending`, `Relay`, `RelayPorts` |

A scope, a dictionary, a class definition and an instance are entries of stores that only grow, and a
reference is an index; this keeps the sharing the C++ pointers have. `Evaluation` takes fuel, spent by calls
and turns of `while` only; `Fuel.RunIsStable` says that the fuel does not matter once it is enough. Rendering
a value that never comes back is an outcome of its own.

## Main results

- **Program text.** Printing, any layout, any quotes and escapes, then `tokenize` and `parse`: the same program
  comes back (`ProgramRoundTrip.TextRoundTrip`), and the programs that come out of a text without a diagnostic
  are exactly the printable ones (`Image.ImageOfTheFrontEnd`). No expression can be written with fewer tokens
  than the printer takes (`Shortest.NoTextIsShorter`). Expression parsing is total; where statement loops run
  for ever is known exactly (`Stalling.LoopSpins`).
- **Scopes.** Every evaluation that ends leaves the current scope as it was, adds names to no other scope, changes
  no class there was, and never lets a `return` out of an expression (contracts of `Evaluation.Evaluate` and
  `Execute`, proved over all node kinds, calls and closures included). No index into a store leads nowhere, and what
  nothing refers to is not reached (`References.NothingDangles`). What `this` means in a method follows from it for
  every call with every kind of argument (`Receivers.MethodSeesItsReceiver`).
- **Termination.** Rendering a value ends exactly if no dictionary that can be reached from it reaches itself
  (`Rendering.RenderingEnds`). Programs without `while`, calls and classes that name themselves end, unless
  they come to render such a value (`Termination.FragmentEndsOrRenders`); without dictionaries they just end
  (`FragmentEnds`). `Recursion.FactorialFromText` follows a recursive program from any of its texts to its
  output.
- **Classes.** Lookup is the first hit of the preorder walk, the instance test is reachability, and edges lead
  back exactly if no class names itself. Wherever in a constructor `super` is met, however deep in its statements
  (`Visits`), the class it refers to is known as long as no class has been declared meanwhile, and so is what a
  declaration does to it (`SuperCalls.SuperInConstructor`, `ClassForgetsTheCurrentOne`). When the walk up the
  parents ends is known exactly (`ClassGraph.ChainEndsExactly`).
- **JSON.** Printing and parsing round-trip for any order of keys; a string, and a key, survives exactly under
  a stated condition.
- **Relay.** Frames of every length form, masked or not, come back from the stream; SHA-1 of the program is
  that of FIPS 180-4; the two base64 encoders agree and are inverted by a decoder; the bracket-counting
  scanner finds the matching bracket of arbitrarily nested text; a posted message arrives as JSON with the
  same data; every interleaving of the connection table keeps live descriptors open and distinct.

## What the proofs found

Each of these is a lemma about the code as it is, with the exact condition or the input.

- A stray `)`, `]`, `,` and other stuck tokens make `parse`, `parseBlock` and the class loop spin; an
  unfinished class body never ends (`Stalling.StatementStalls`, `LoopSpins`, `UnfinishedBodies`).
- `else if` is not part of the grammar: it takes everything up to the brace of the enclosing block, and that
  brace with it (`ElseIf.ElseIfTakesTheRest`).
- `x += e` stores `null` in `x`, for every `e` that can be evaluated (`Scoping.CompoundAssignmentLosesTheValue`).
- A dictionary that is put into itself is rendered for ever (`Laws.InsideItselfNeverPrints`, `KnotsNeverRender`;
  exactly: `Rendering.RenderingEnds`).
- A method called on an instance sees it as `this` exactly if no other `this` is visible where it is called, behind
  the arguments (`Receivers.MethodSeesItsReceiver`): `object.method($this = 5)` makes it see 5 (`ArgumentBindsThis`).
- `super` leads to the parent of the class whose constructor runs exactly if the last class declared under the name
  current at its start has that parent, and only until a class is declared (`SuperCalls.SuperInConstructor`). Behind
  a class declared in the constructor it is refused (`ClassForgetsTheCurrentOne`,
  `ClassInConstructor.ClassTakesTheParentAway`).
- In a constructor called by `super` it leads to the same class again (`SuperCalls.SuperInCalledConstructor`). So a class
  is never instantiated if its constructor and the one `super` leads to both come to `super`, whatever else they do
  (`TwoLevelsAreForEver`); for constructors that begin with it and go on without calls, exactly then
  (`SuperEndsExactly`); else the parent's constructor runs once (`ParentRunsOnce`).
- A class can be instantiated, if its constructor ends, exactly if no class on its chain of parents extends
  itself (`ClassGraph.InstantiableExactly`).
- `%` differs from `fmod`, which its comment refers to, exactly for a dividend that is not negative and a
  negative divisor that does not divide it (`Laws.RemainderIsFmod`).
- Equality of values is not transitive, exactly where a boolean stands between two different numbers
  (`Laws.EqualityAlmostTransitive`).
- A JSON string survives exactly if its only control characters are the five with their own escape, a key
  exactly if it has no quote and no backslash; a string leads one behind the end exactly if it is still open at a
  `\u` with exactly four characters behind it (`JsonRoundTrip.StringSurvives`, `KeySurvives`, `StringRunsOver`).
- The relay loses the data of a posted message exactly if its type is spelled `data`, and cuts it exactly if it is a
  string with a quote (`EnvelopeRoundTrip.EnvelopeReads`, `StringSurvives`, `RelayedMessage.RelayKeepsTheMessage`).
- A message of more than 65532 characters runs over the buffer it is sent from, and a client can cause one
  (`WebSocket.FrameFits`, `RelayedMessage.ChatCanOverrun`).
- A message between sockets is the JSON of its object with the sender in front exactly if the name of the sender needs
  no escapes, and says who sent it exactly if its own object says nothing else (`RelayedMessage.ChatKeepsTheMessage`).
- `send_to_user` holds the lock of the table, but handlers clear and close without it: a message goes to the
  right connection exactly if the handler does not close the descriptor in between
  (`Sending.ReceiverKeepsDescriptor`, `DescriptorCanBeReused`).
- Closing a descriptor before clearing `alive` would mix users up (`ConnectionTable.SwappedOrderMixesUsers`).

## Assumptions

- A number is an exact real. Bit operations are on `bv8` and `bv32` and wrap as in C.
- The text of a number that is not whole, the order in which the keys of a dictionary are walked, and all native
  functions are parameters (`Values.Host`). `References.NothingDangles` asks native functions to hand on only references
  they have been given and to drop no dictionary, `Rendering.RenderingEnds` asks the order to list every key.
- A native function changes nothing but dictionaries and returns. The server loop is one that calls handlers written in
  the language while it runs (`bantuCallFunction`, evaluator.hpp:1174); no such callback is covered.
- A C string holds no zero character; texts that are handed to the scanners of the relay are C strings.
- `recv(k)` returns `k` bytes wherever `k` are left in the stream.
- A step of the connection table is atomic, the slot is handed to a new thread by value, and the relay is not
  shutting down. In the code the thread gets the address of a local of the accept loop.

## Model

| member | source | states |
|---|---|---|
| `Lexing.Lexer.Advance` | bantu-src/compiler/src/lexer.hpp:109-115 | the offset moves by one, not behind the end, and line and column stay those of the offset: one plus the newlines before it, one plus the characters since the last newline |
| `Lexing.Lexer.SkipWhitespace` | bantu-src/compiler/src/lexer.hpp:117-121 | stops at the first character that is no white space |
| `Lexing.Lexer.SkipLineComment` | bantu-src/compiler/src/lexer.hpp:123-125 | stops at the newline or the end |
| `Lexing.Lexer.SkipBlockComment` | bantu-src/compiler/src/lexer.hpp:127-137 | stops behind the first `*/`; one diagnostic if there is none |
| `Lexing.Lexer.ReadStringToken` | bantu-src/compiler/src/lexer.hpp:139-166 | the decoded string, placed at its opening quote; an open string ends with the text |
| `Lexing.Lexer.ReadNumberToken` | bantu-src/compiler/src/lexer.hpp:168-183 | exactly the characters taken; one point at most, not in front of something else than a digit |
| `Lexing.Lexer.ReadIdentifierToken` | bantu-src/compiler/src/lexer.hpp:185-194 | the longest word, with its keyword type |
| `Lexing.Lexer.ReadOperator` | bantu-src/compiler/src/lexer.hpp:62-97 | the longest operator first; an unknown character is reported and dropped |
| `Lexing.Lexer.Turn` | bantu-src/compiler/src/lexer.hpp:23-97 | one turn of the main loop is one step of the scan, comments and tokens alike |
| `Lexing.Lexer.Tokenize` | bantu-src/compiler/src/lexer.hpp:15-101 | terminates on every source; exactly the lexemes of the text, each with the line and column of its own start, closed by the end marker |
| `Scanning.StartsIncrease` | bantu-src/compiler/src/lexer.hpp:15-101 | on every source, unfinished strings and comments included, token starts strictly increase |
| `Layout.LayoutRoundTrip` | bantu-src/compiler/src/lexer.hpp:15-194 | any spelling of the tokens (quotes, escapes), any blanks and comments between them: the tokens come back without a diagnostic, whenever neighbours do not run together |
| `Parsing.Parser.TakeToken` | bantu-src/compiler/src/parser.hpp:35-38 | moves one token on, unless at the end marker, and returns the token in front of the cursor |
| `Parsing.Parser.Match` | bantu-src/compiler/src/parser.hpp:42-45 | moves exactly if the token is the one asked for, never over the end marker |
| `Parsing.Parser.Expect` | bantu-src/compiler/src/parser.hpp:47-51 | takes the token, or reports and stays |
| `Parsing.Parser.ParseExpression` | bantu-src/compiler/src/parser.hpp:260-262 | terminates on every token list; tree, cursor and diagnostics are those of the grammar function |
| `Parsing.Parser.ParseAssignment` | bantu-src/compiler/src/parser.hpp:264-281 | right-associative assignment to a variable, an index or a property; anything else is reported |
| `Parsing.Parser.ParseCompound` | bantu-src/compiler/src/parser.hpp:283-294 | `op=` on a variable becomes an assignment of `name op= value`; elsewhere the right-hand side is dropped |
| `Parsing.Parser.ParseOr` | bantu-src/compiler/src/parser.hpp:297-304 | left-associative chain of `or` operators |
| `Parsing.Parser.ParseAnd` | bantu-src/compiler/src/parser.hpp:306-313 | left-associative chain of `and` operators |
| `Parsing.Parser.ParseEquality` | bantu-src/compiler/src/parser.hpp:315-323 | left-associative chain of equality tests |
| `Parsing.Parser.ParseComparison` | bantu-src/compiler/src/parser.hpp:325-334 | left-associative chain of comparisons |
| `Parsing.Parser.ParseAddition` | bantu-src/compiler/src/parser.hpp:336-344 | left-associative chain of sums |
| `Parsing.Parser.ParseMultiplication` | bantu-src/compiler/src/parser.hpp:346-354 | left-associative chain of products |
| `Parsing.Parser.ParseUnary` | bantu-src/compiler/src/parser.hpp:356-363 | prefix operators, nested to any depth |
| `Parsing.Parser.ParseCall` | bantu-src/compiler/src/parser.hpp:365-426 | chains of calls, properties and indices |
| `Parsing.Parser.ParsePrimary` | bantu-src/compiler/src/parser.hpp:428-512 | atoms, groups, lists, dictionaries; `null` and a diagnostic where no operand begins |
| `Parsing.Parser.ParseStatement` | bantu-src/compiler/src/parser.hpp:54-75 | every statement form, and `None` exactly where the source never comes back |
| `Parsing.Parser.ParseIf` | bantu-src/compiler/src/parser.hpp:77-91 | condition, body, and behind `else` a block and nothing else |
| `ElseIf.ElseIfTakesTheRest` | bantu-src/compiler/src/parser.hpp:77-91 | `else if` is read with one diagnostic; everything up to the brace that closes the enclosing block becomes the else part, and that brace is taken |
| `Parsing.Parser.ParseWhile` | bantu-src/compiler/src/parser.hpp:93-101 | condition and body |
| `Parsing.Parser.ParseFor` | bantu-src/compiler/src/parser.hpp:103-115 | start, condition, update and body |
| `Parsing.Parser.ParseEach` | bantu-src/compiler/src/parser.hpp:117-128 | variable, list and body |
| `Parsing.Parser.ParseFuncDecl` | bantu-src/compiler/src/parser.hpp:130-147 | name, parameters with or without `$`, body |
| `Parsing.Parser.ParseTryCatch` | bantu-src/compiler/src/parser.hpp:165-176 | both blocks and the name of the error |
| `Parsing.Parser.ParseClass` | bantu-src/compiler/src/parser.hpp:178-217 | name, parent, implemented names and members |
| `Parsing.Parser.ParseDeclaration` | bantu-src/compiler/src/parser.hpp:219-240 | `const` and typed declarations |
| `Parsing.Parser.ParseBlock` | bantu-src/compiler/src/parser.hpp:249-257 | statements up to the brace; `None` where the loop makes no progress |
| `Parsing.Parser.Parse` | bantu-src/compiler/src/parser.hpp:17-24 | the program, or `None` where the loop makes no progress |
| `Grammar.Expression` | bantu-src/compiler/src/parser.hpp:260-512 | total on every token list with an end marker; the cursor never moves back nor behind the marker, diagnostics are only added |
| `Stalling.StatementStalls` | bantu-src/compiler/src/parser.hpp:54-75 | a statement is parsed without moving if and only if it starts at a stuck token; it is the `null` expression then, with one diagnostic |
| `Stalling.LoopSpins` | bantu-src/compiler/src/parser.hpp:249-257 | a statement loop (program, block, class) runs for ever if and only if statements that each move lead to a stuck token or a statement that never ends |
| `Stalling.UnfinishedBodies` | bantu-src/compiler/src/parser.hpp:203-215 | without a closing brace a class body never ends, while a block ends at the end marker |
| `ExpressionRoundTrip.ShowAt` | bantu-src/compiler/src/parser.hpp:260-512 | a printed expression, in front of anything that cannot extend it, is parsed back as itself at any level of the grammar, and the parser stops behind it |
| `Shortest.NoTextIsShorter` | bantu-src/compiler/src/parser.hpp:260-512 | whatever tokens are parsed as an expression without a diagnostic, the printer needs no more of them for that tree: no parentheses it writes can be left out |
| `StatementRoundTrip.TokensRoundTrip` | bantu-src/compiler/src/parser.hpp:17-257 | the tokens of any program parse back to it, with no diagnostic and nothing left over |
| `ProgramRoundTrip.TextRoundTrip` | bantu-src/compiler/src/parser.hpp:17-512 | every program the grammar can produce has a text, and every text of it is read back as that program by lexer and parser together |
| `Image.ImageOfTheFrontEnd` | bantu-src/compiler/src/parser.hpp:17-512 | the trees of texts accepted without a diagnostic are exactly the trees the printer can write |
| `Evaluator.Interpreter.Define` | bantu-src/compiler/src/environment.hpp:18-20 | binds the name in the current scope and changes nothing else |
| `Evaluator.Interpreter.Get` | bantu-src/compiler/src/environment.hpp:22-28 | the value in the nearest scope that binds the name; `null` and a diagnostic if there is none |
| `Evaluator.Interpreter.Set` | bantu-src/compiler/src/environment.hpp:39-44 | changes the nearest scope that binds the name; a diagnostic and no change if there is none |
| `Evaluator.Interpreter.Has` | bantu-src/compiler/src/environment.hpp:46-51 | whether any scope outwards binds the name |
| `Scoping.BinderIsInnermost` | bantu-src/compiler/src/environment.hpp:22-51 | a name resolves to the innermost enclosing scope that binds it, and to none if and only if no enclosing scope does |
| `Evaluator.Interpreter.EvalNode` | bantu-src/compiler/src/evaluator.hpp:507-546 | signal and fields are the outcome of the expression from the old state |
| `Evaluator.Interpreter.EvalAll` | bantu-src/compiler/src/evaluator.hpp:556-562 | elements are evaluated from left to right |
| `Evaluator.Interpreter.EvalDict` | bantu-src/compiler/src/evaluator.hpp:564-570 | members are evaluated in order, later keys win, and the dictionary is a new one |
| `Evaluator.Interpreter.Assign` | bantu-src/compiler/src/evaluator.hpp:591-599 | sets the name where it is bound, defines it here if it is not |
| `Evaluator.Interpreter.EvalIndexAssign` | bantu-src/compiler/src/evaluator.hpp:604-633 | through a reference to the variable: bounds, growth with zeros, dictionaries by the text of the index |
| `Evaluator.Interpreter.EvalSlowly` | bantu-src/compiler/src/evaluator.hpp:635-661 | object and index are evaluated (again), a copy is changed and written back to a variable |
| `Evaluator.Interpreter.EvalDictAssign` | bantu-src/compiler/src/evaluator.hpp:664-684 | object before value; instances and dictionaries; anything else is refused |
| `Evaluator.Interpreter.EvalBinary` | bantu-src/compiler/src/evaluator.hpp:690-735 | both operands, left first, for every operator |
| `Evaluator.Interpreter.ExecNode` | bantu-src/compiler/src/evaluator.hpp:507-546 | signal and fields are the outcome of the statement from the old state; the catch part of a `try` never runs |
| `Evaluator.Interpreter.ExecBlock` | bantu-src/compiler/src/evaluator.hpp:750-768 | a new scope for the statements, the old one restored unless a `return` gets through |
| `Evaluator.Interpreter.ExecWhile` | bantu-src/compiler/src/evaluator.hpp:770-787 | the loop as it runs from the old state, a scope for each turn |
| `Evaluator.Interpreter.ExecFor` | bantu-src/compiler/src/evaluator.hpp:789-815 | one scope for the head, one for each turn, at most 100000 turns |
| `Evaluator.Interpreter.ExecEach` | bantu-src/compiler/src/evaluator.hpp:817-838 | one turn for each item of the list as it was evaluated |
| `Evaluator.Interpreter.EvalCall` | bantu-src/compiler/src/evaluator.hpp:1301-1368 | callee, then arguments, then the call |
| `Evaluator.Interpreter.Invoke` | bantu-src/compiler/src/evaluator.hpp:1320-1367 | native function, class or function; too many arguments are reported, anything else is refused |
| `Evaluator.Interpreter.CallBody` | bantu-src/compiler/src/evaluator.hpp:1352-1363 | the body runs below the closure of the function; a `return` ends here and the scope of the caller is back |
| `Evaluator.Interpreter.EvalInstanceProperty` | bantu-src/compiler/src/evaluator.hpp:1377-1388 | properties before methods; a method is copied with a scope that binds the receiver |
| `Evaluator.Interpreter.EvalProperty` | bantu-src/compiler/src/evaluator.hpp:1374-1516 | properties of every kind of value |
| `Evaluator.Interpreter.EvalIndex` | bantu-src/compiler/src/evaluator.hpp:1518-1542 | elements of lists, dictionaries and strings, with the bounds of each |
| `Evaluator.Interpreter.FindMethod` | bantu-src/compiler/src/class.hpp:32-50 | own methods, parent, implemented classes from left to right, or a search that never ends |
| `Evaluator.Interpreter.ExecClass` | bantu-src/compiler/src/evaluator.hpp:1576-1646 | registration, resolution of parents, class scope, members, and the name bound to the class |
| `Evaluator.Interpreter.EvalSuper` | bantu-src/compiler/src/evaluator.hpp:1648-1698 | the constructor of the parent of the current class as registered now |
| `Evaluator.Interpreter.Instantiate` | bantu-src/compiler/src/evaluator.hpp:1700-1773 | own constructor with the current class set and restored, else that of the parent |
| `Evaluator.Interpreter.Run` | bantu-src/compiler/src/evaluator.hpp:491-497 | the statements of a program in turn |
| `Evaluation.Evaluate` | bantu-src/compiler/src/evaluator.hpp:507-744 | scope discipline of expressions: the current scope is back, no `return` escapes, scopes keep parents and names, only the current one may get new names; classes there were do not change, and the current class stays unless a class is declared |
| `Evaluation.Execute` | bantu-src/compiler/src/evaluator.hpp:750-838 | the same of statements, C++ exceptions aside: after a normal end the current scope is back, in every case older scopes keep their names and older classes are as they were |
| `Evaluation.Apply` | bantu-src/compiler/src/evaluator.hpp:1335-1364 | a call never lets a `return` escape and restores the scope of the caller |
| `Scoping.AssignsNearest` | bantu-src/compiler/src/evaluator.hpp:591-599 | an assignment changes one name in one scope, the nearest that binds it, and then reads back as assigned |
| `Scoping.BlocksKeepNames` | bantu-src/compiler/src/evaluator.hpp:750-838 | however a block ends, every name resolves outside it as before |
| `Scoping.CallsKeepNames` | bantu-src/compiler/src/evaluator.hpp:1335-1364 | a call, wherever its `return` was met, comes back to the scope it was made in and changes the meaning of no name in any scope |
| `Scoping.CompoundAssignmentLosesTheValue` | bantu-src/compiler/src/parser.hpp:283-291 | whatever is added with `+=` and its kin, the variable ends up `null`, and this evaluation adds a diagnostic |
| `ForLoops.EndlessForIsCut` | bantu-src/compiler/src/evaluator.hpp:789-815 | any `for` makes some number of turns, at most 100000, and its end is known for each number; it makes 100000, and ends there, if and only if the condition held before each and each ended normally |
| `Fuel.RunIsStable` | bantu-src/compiler/src/evaluator.hpp:491-497 | a run that ends with some fuel ends the same way with any more |
| `Rendering.RenderingEnds` | bantu-src/compiler/src/types.hpp:114-157 | the text of a value is found if and only if no dictionary that can be reached from it reaches itself |
| `Rendering.TextIsRecursion` | bantu-src/compiler/src/types.hpp:114-157 | that text is what the plain recursion yields at some depth; where there is none, the recursion exceeds every depth |
| `Rendering.Render` | bantu-src/compiler/src/types.hpp:114-157 | the streams of `toString`, filled element by element and member by member, give that text |
| `Laws.InsideItselfNeverPrints` | bantu-src/compiler/src/evaluator.hpp:664-680 | `$n = {}; $n.key = $n; print $n` never ends, from whatever state |
| `Laws.KnotsNeverRender` | bantu-src/compiler/src/evaluator.hpp:694-698 | neither does such a dictionary next to a string under `+`, or used as a key |
| `Termination.FragmentEndsOrRenders` | bantu-src/compiler/src/evaluator.hpp:601-838 | every program without `while`, calls and classes that name themselves, from every state without a class below itself, ends or comes to render a value from which a dictionary that contains itself can be reached; which of the two does not depend on the fuel |
| `Termination.FragmentEnds` | bantu-src/compiler/src/evaluator.hpp:601-838 | without dictionary literals, from a state without dictionaries, it ends |
| `References.NothingDangles` | bantu-src/compiler/src/evaluator.hpp:491-1773 | no run follows an index of a closure, dictionary, class or instance that leads nowhere, none is left, and scopes nothing refers to stay as they were, given native functions that keep to that; the stores never shrink, so nothing is said about the lifetimes of the C++ objects |
| `ClassGraph.GetMethodIsFirstHit` | bantu-src/compiler/src/class.hpp:32-50 | method lookup is the first hit of the preorder walk, and never ends exactly where the walk gets stuck before a hit; that methods are functions, which it asks for, is part of every state a run reaches |
| `ClassGraph.IsInstanceOfIsReachability` | bantu-src/compiler/src/class.hpp:53-60 | the instance test holds exactly if a class of that name can be reached |
| `ClassGraph.EdgesLeadBack` | bantu-src/compiler/src/evaluator.hpp:1580-1614 | after any declarations, redeclared names included, edges lead only to earlier classes if and only if the class does not name itself |
| `ClassGraph.SearchesEnd` | bantu-src/compiler/src/class.hpp:32-60 | if no class names itself, lookup and the walk up the parents end |
| `ClassGraph.ChainEndsExactly` | bantu-src/compiler/src/evaluator.hpp:1703-1712 | after any declarations the walk up the parents of a class ends if and only if no class on its chain names itself behind `extends` |
| `ClassGraph.InstantiableExactly` | bantu-src/compiler/src/evaluator.hpp:1700-1773 | a class whose constructor ends can be instantiated if and only if no class on its chain names itself behind `extends` |
| `Laws.RelatedComparisons` | bantu-src/compiler/src/evaluator.hpp:723-728 | comparisons mirror and negate each other, for all values; on numbers, which are never NaN here, equal means neither less nor greater |
| `Laws.RemainderIsFmod` | bantu-src/compiler/src/evaluator.hpp:711-721 | `%` is the remainder of `fmod` if and only if it is not a division with a rest of a non-negative dividend by a negative divisor |
| `Laws.ListStoreReads` | bantu-src/compiler/src/evaluator.hpp:601-633 | after an index assignment the item reads back, the others are kept, the gap reads as zero, everything else is out of bounds, and no other variable changes even if it held the same list |
| `Laws.DictionariesAreShared` | bantu-src/compiler/src/evaluator.hpp:664-680 | after a property assignment every variable that holds the same dictionary reads the new value |
| `Laws.ParametersHoldArguments` | bantu-src/compiler/src/evaluator.hpp:1348-1350 | a parameter holds the argument in its place or `null`, the last one if it is named twice, and other names keep their value |
| `Laws.WhileRule` | bantu-src/compiler/src/evaluator.hpp:770-787 | what every turn of a `while` keeps holds where its condition is found false at last |
| `Receivers.MethodSeesItsReceiver` | bantu-src/compiler/src/evaluator.hpp:1301-1368 | in `object.method(..)` the method sees the object as `this` if and only if no other `this` is visible where the call is made, behind the arguments; whatever the arguments do, they do not reach the scope that binds the receiver |
| `Receivers.ArgumentBindsThis` | bantu-src/compiler/src/evaluator.hpp:1320-1350 | `object.method($this = x)`, with no `this` visible before, makes the method see `x` |
| `Visits.MeetsBody` | bantu-src/compiler/src/evaluator.hpp:507-838 | wherever in a body an expression comes to be evaluated, the state keeps scopes and classes as a run does, and where the body ends the evaluation of that expression has ended |
| `Escapes.ReturnsFromWithin` | bantu-src/compiler/src/evaluator.hpp:1295-1299 | a `return` gets out of a statement only if there is one in it, outside the bodies of functions |
| `SuperCalls.SuperInConstructor` | bantu-src/compiler/src/evaluator.hpp:1648-1771 | wherever `super` is met in the constructor of an instantiation: until a class is declared it leads to the parent of the class whose constructor it is if and only if the last class declared under the current name (that of the class for an own constructor, that of the caller for an inherited one) has this parent; later the current class is still that one, or none and `super` is refused, or one declared since |
| `SuperCalls.SuperInCalledConstructor` | bantu-src/compiler/src/evaluator.hpp:1648-1698 | wherever `super` is met in a constructor called by `super`: until a class is declared it leads to the same class again, right only for a class that is its own parent |
| `SuperCalls.ClassForgetsTheCurrentOne` | bantu-src/compiler/src/evaluator.hpp:1624-1642 | behind the end of a class declared on the way `super` is refused; a `return` out of one leaves no current class or one declared since |
| `ClassInConstructor.ClassTakesTheParentAway` | bantu-src/compiler/src/evaluator.hpp:1576-1698 | two whole programs: a constructor that declares a class and then calls `super` is refused and prints nothing, with the two statements in the other order the constructor of the parent prints |
| `SuperCalls.TwoLevelsAreForEver` | bantu-src/compiler/src/evaluator.hpp:1648-1742 | a class whose constructor comes to `super` with no `return` in front of it, as does the constructor that leads to, is never instantiated, whatever else these do, unless a class is declared meanwhile |
| `SuperCalls.SuperEndsExactly` | bantu-src/compiler/src/evaluator.hpp:1648-1742 | for a constructor that begins with `super` and goes on without calls: instantiation never ends if and only if the constructor `super` leads to begins with `super` too |
| `SuperCalls.ParentRunsOnce` | bantu-src/compiler/src/evaluator.hpp:1648-1742 | otherwise the arguments are evaluated, the constructor of the parent runs once and on the same instance, then the rest of the body |
| `Recursion.FactorialFromText` | bantu-src/compiler/src/evaluator.hpp:491-497 | every text of a recursive factorial program is parsed and prints n!, without a diagnostic, in exact numbers for every n; up to 20, where the integer conversion of the source still holds, as the digits of n! |
| `Json.ParseValue` | bantu-src/compiler/src/evaluator.hpp:173-233 | total on every string; the cursor never moves back and ends at most one behind the text |
| `JsonRoundTrip.RoundTrip` | bantu-src/compiler/src/evaluator.hpp:67-233 | parsing a printed tree of clean strings and plain keys, in front of anything that cannot continue a number, gives its meaning and stops exactly behind it |
| `JsonRoundTrip.OrderDoesNotMatter` | bantu-src/compiler/src/evaluator.hpp:105-117 | two objects with the same members mean the same in whatever order they are printed |
| `JsonRoundTrip.StringSurvives` | bantu-src/compiler/src/evaluator.hpp:75-98 | a string comes back if and only if its only control characters are the five with an escape of their own |
| `JsonRoundTrip.KeySurvives` | bantu-src/compiler/src/evaluator.hpp:113 | a key comes back if and only if it holds no quote and no backslash |
| `JsonRoundTrip.ValueStaysInside` | bantu-src/compiler/src/evaluator.hpp:155-161 | the cursor ends inside any text that does not end in `\u` and exactly four characters |
| `JsonRoundTrip.StringRunsOver` | bantu-src/compiler/src/evaluator.hpp:143-170 | a string leads one behind the end if and only if it is still open there |
| `JsonRoundTrip.OneBehindTheEnd` | bantu-src/compiler/src/evaluator.hpp:155-164 | the bound of one behind the end is reached by an open string that ends in a `\u` escape |
| `JsonReader.Stringify` | bantu-src/compiler/src/evaluator.hpp:67-130 | the append loops produce the printed form of every finite tree with whole numbers |
| `JsonReader.Reader.ReadString` | bantu-src/compiler/src/evaluator.hpp:139-172 | the loop over a by-reference cursor reads the string of the specification |
| `JsonReader.Reader.ReadValue` | bantu-src/compiler/src/evaluator.hpp:173-233 | the recursive reader with one shared cursor returns the value and leaves the cursor as specified |
| `Text.SplitIsInvertible` | bantu-src/compiler/src/evaluator.hpp:1959-1966 | the pieces hold no separator and, joined by it, are the text |
| `Text.SplitText` | bantu-src/compiler/src/evaluator.hpp:1951-1967 | the loop of `split`, the empty separator included |
| `Text.ReplaceIsSplitAndJoin` | bantu-src/compiler/src/evaluator.hpp:2001-2009 | replacing is splitting by the old text and joining by the new one |
| `Text.ReplaceText` | bantu-src/compiler/src/evaluator.hpp:1993-2010 | the loop of `replace`, the empty text included |
| `Base64.RoundTrip` | wsrelay.c:98-111 | a decoder gives back every byte string, as section 4 of RFC 4648 has it |
| `Base64.EncodedLength` | wsrelay.c:98-111 | four characters for every group of three bytes begun |
| `Base64.EncodeGroups` | wsrelay.c:98-111 | the loop over groups of three bytes writes the standard encoding |
| `Base64.EncodeBits` | bantu-src/compiler/src/main.cpp:264-279 | the bit accumulator writes the same encoding, although its 32 bits overflow |
| `Sha1.PaddedLengthIsLeast` | wsrelay.c:62-63 | the padded length is the least multiple of 64 with room for the marker and the length |
| `Sha1.PaddingIsInjective` | wsrelay.c:62-68 | different messages below 2^61 bytes are padded differently (section 5.1.1 of FIPS 180-4) |
| `Sha1Program.PadBuffer` | wsrelay.c:62-68 | the buffer is the padded message |
| `Sha1Program.FillSchedule` | wsrelay.c:70-75 | the 80 words are the message schedule of the block |
| `Sha1Program.RunRounds` | wsrelay.c:76-85 | 80 rounds in place are the compression of the standard, with `or` for `xor` in two functions |
| `Sha1Program.Hash` | wsrelay.c:60-96 | the digest of the standard for every message (section 6.1.2 of FIPS 180-4) |
| `Handshake.ComputeAccept` | wsrelay.c:113-125 | base64 of the hash of key and GUID (section 4.2.2 of RFC 6455) |
| `Framing.FrameReads` | wsrelay.c:150-175 | a frame in any length form, masked or not, in front of anything: the payload as far as it fits, nothing if it is empty |
| `Framing.ReceivedExactly` | wsrelay.c:150-175 | a frame is received as it was sent, and nothing else taken, if and only if its payload is not empty and fits |
| `Framing.StreamReads` | wsrelay.c:150-175 | reading a stream of such frames gives the payloads in order with nothing left over |
| `Framing.RelayReadsItsFrames` | wsrelay.c:127-175 | what the relay sends it reads back |
| `WebSocket.Connection.Recv` | wsrelay.c:152 | as many bytes as asked for, or all there are |
| `WebSocket.Connection.WsSend` | wsrelay.c:127-144 | exactly the frame of the message is written, in the shortest length form, if and only if the message has at most 65532 bytes; the copy of a longer one runs over the buffer |
| `WebSocket.FrameFits` | wsrelay.c:127-144 | the frame fits the buffer if and only if the message has at most 65532 bytes |
| `WebSocket.Connection.WsRecv` | wsrelay.c:150-175 | one frame of the stream, unmasked in the buffer with a zero behind it, or -1; so too where the stream ends behind one byte, whatever the second byte of the header then holds |
| `ConnectionTable.EveryInterleavingIsSafe` | wsrelay.c:429-535 | in every interleaving each live slot has exactly one handler, and the descriptors of live slots, of handlers between clearing and closing and of the pending connection are open, pairwise distinct and all that is open |
| `ConnectionTable.LiveDescriptorsAreOwn` | wsrelay.c:204-215 | the descriptor a message goes to is open and no other slot shares it |
| `ConnectionTable.SwappedOrderMixesUsers` | wsrelay.c:460-461 | with `close` in front of clearing `alive` two live slots of different users share a descriptor |
| `Sending.ReceiverKeepsDescriptor` | wsrelay.c:204-215 | in every interleaving between looking a user up and writing, the descriptor stays that of the user, open and shared with nobody, if and only if the handler has not closed it meanwhile |
| `Sending.DescriptorCanBeReused` | wsrelay.c:204-215 | once closed it may be the descriptor of a connection just accepted when the message is written |
| `Relay.Table.FindClientSlot` | wsrelay.c:177-180 | the first slot that is not alive, -1 if there is none |
| `Relay.Table.Register` | wsrelay.c:525-530 | the slot filled, or nothing changed where the table is full |
| `Relay.Table.SendToUser` | wsrelay.c:204-215 | written once, to the first live slot of the user, and not at all exactly if there is none |
| `RelayPorts.KthAllocation` | bantu-src/compiler/src/server.hpp:416-430 | the k-th allocation gets `start + k mod (60000 - start)`, whatever peers ask; starts from 60000 on and the wrap of 16 bits included |
| `RelayPorts.WindowIsDistinct` | bantu-src/compiler/src/server.hpp:416-430 | ports within one window of allocations are pairwise distinct |
| `RelayPorts.Collisions` | bantu-src/compiler/src/server.hpp:416-440 | two peers are stored with the same port if and only if their latest allocations are whole windows apart |
| `RelayPorts.TurnServer.AllocateRelay` | bantu-src/compiler/src/server.hpp:416-430 | counter and table after one more peer |
| `RelayPorts.TurnServer.GetAllocation` | bantu-src/compiler/src/server.hpp:433-441 | the stored port of the peer, if there is one |
| `Extraction.GroupCopied` | wsrelay.c:300-319 | counting one kind of bracket outside strings finds the matching bracket of arbitrarily nested mixed brackets and escaped strings |
| `Extraction.PrintedTreeCopied` | wsrelay.c:300-319 | a printed object or list is copied exactly, wherever it stands |
| `EnvelopeRoundTrip.EnvelopeReads` | wsrelay.c:256-370 | from an envelope without zero characters the scanners return exactly recipient, sender, type and data, if and only if the data is no string with an escaped quote and the type is not spelled `data` (or the data is `null`) |
| `EnvelopeRoundTrip.StringSurvives` | wsrelay.c:291-299 | a string with escapes is copied whole if and only if none of them is a quote |
| `EnvelopeRoundTrip.PrintedIsPayload` | wsrelay.c:291-327 | every printed value that fits is such data |
| `Scanner.FindKey` | wsrelay.c:284-287 | the first occurrence of the key in quotes |
| `Scanner.Extract` | wsrelay.c:283-328 | the buffer holds the text of the value as specified, ended by a zero, within its size |
| `Scanner.ParseInt` | wsrelay.c:256-280 | the number behind the key, quoted or not, 0 without one |
| `Scanner.TakeApart` | wsrelay.c:348-371 | recipient, type, sender and data of a posted message, with the defaults of the handler |
| `RelayedMessage.RelayKeepsTheMessage` | wsrelay.c:348-371 | a posted object printed as JSON, with any value as data, is composed as the JSON of the same type, sender and data, if it can be sent, if and only if the data is no string with a quote and the type is not spelled `data` (or the data is `null`) |
| `RelayedMessage.ChatKeepsTheMessage` | wsrelay.c:445-457 | an object sent over a socket is passed on, if it can be sent, as the JSON of its members with the sender in front if and only if the name of the sender needs no escapes; then it can be sent if and only if that JSON has at most 65532 characters, and the receiver reads the true sender if and only if the object says nothing else |
| `RelayedMessage.ChatCanOverrun` | wsrelay.c:432-457 | for any sender there is an object that fits the receive buffer, names a recipient, and becomes a frame that runs over the send buffer |

## Left out

- Rounding, overflow and special values of doubles; text of numbers that are not whole, and ranges of casts to
  `int` and of `atoi`.
- Characters outside the C locale: letters, digits and white space are those of ASCII.
- Positions in syntax trees; the lexer's line and column are modelled, the parser does not use them for trees.
- `Evaluation.Evaluate`: `break` and `continue` do nothing, as in the code, where they are bare nodes; the
  signals of that name are never thrown.
- `Evaluation.Execute`: the `catch` part of a `try` never runs. Errors of the language only print; what reaches it are
  C++ exceptions, of native functions or of `resize` where an index is too large for the list to grow to
  (evaluator.hpp:617, 641), and neither is modelled. Behind them the scope and the class current at the throw stay so.
- `Evaluator.Interpreter.ExecNode`: the same.
- `Evaluation.Property`: what the list, string and number methods return when called belongs to `Values.Host`,
  like every native function (`Text.SplitText` and `Text.ReplaceText` aside).
- `Evaluator.Interpreter.Run`: scopes, dictionaries, classes and instances are entries of stores in fields, not
  heap objects; they are shared by index and never freed. An index that leads nowhere is an outcome, which
  `References.NothingDangles` excludes.
- `References.NothingDangles`: it is about indices into stores that never shrink; that the C++ objects live long
  enough is not shown, nor that native functions keep to what is asked of them.
- `Termination.FragmentEnds`: programs with dictionary literals and states with dictionaries, for which it would be
  false; `FragmentEndsOrRenders` says what holds there.
- `SuperCalls.SuperEndsExactly`: constructors that call `super` elsewhere than in their first statement, with
  arguments that are not plain, or that go on with calls; for these `TwoLevelsAreForEver` says one half.
- `SuperCalls.ParentRunsOnce`: the same constructors.
- The lines the evaluator prints about the classes it declares; the log holds what `print` shows.
- `Recursion.FactorialFromText`: from 21 on the source's conversion to an integer overflows.
- `JsonReader.Stringify`: numbers that are not whole, and dictionaries that contain themselves.
- `Laws.RelatedComparisons`: NaN.
- The statements for channels, streams, peers and signals of the language: canned data.
- `RelayedMessage.RelayKeepsTheMessage`: the text composed with `snprintf` is a function, no loop; the relay takes
  a posted body from a buffer of 8192 bytes, so a posted message always fits in practice.
- `RelayedMessage.ChatKeepsTheMessage`: what the receiver makes of a message with a user name that needs escapes.
- `EnvelopeRoundTrip.EnvelopeReads`: other orders of the members, and text between them.
- `WebSocket.Connection.WsSend`: what the program does once it has run over its buffer; `send` writes everything.
- `WebSocket.Connection.WsRecv`: reads that return fewer bytes than there are left.
- `ConnectionTable.EveryInterleavingIsSafe`: shutting down, and the handoff of the slot by the address of a local.
- The answers of the relay over HTTP, presence broadcasts, tokens and their database, and `proxy.c`.
- SQLite, Postgres, MySQL, `fetch`, the server framework and the rest of `server.hpp`, the command line, and
  `server.b`: input and output, or simulated.
- `public/` and the deployment files.
