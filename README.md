# Design-pattern demos, modelled in Dafny

This project models the logic in the Python design-pattern demos of
*Mastering Python Design Patterns*. It covers nine patterns:

- **Flyweight car pool** (`flyweight.dfy`). Asking for a car of a given type
  returns the one shared `Car` of that type. The car is created and pooled on
  the first request. The class-level dict is an explicit `CarPool` object.
- **Prototype registry** (`prototype.dfy`). Websites are open attribute bags
  (`map<string, Value>`). They are registered under an identifier and cloned
  with some attributes overridden. `str(website)` is a header followed by the
  sorted `attr: val` lines.
- **Memoising decorator** (`mymath.dfy`). A get-or-compute cache sits in front
  of `number_sum` and `fibonacci`. Their recursion goes back through the
  decorator.
- **Chain of responsibility** (`chain.dfy`). An event is handled by the nearest
  widget on the parent chain that has a handler for it. Only the root of the
  chain falls back to its default handler.
- **Facade** (`facade.dfy`). It covers the server life cycle
  `new → running → restart | zombie` and the operating-system object that
  boots both servers.
- **Lazy property** (`lazy.dfy`). The attribute is computed once and then
  stored on the instance.
- **Builder** (`builder.dfy`). Each construction uses a fresh builder, which
  fills a fresh computer record.
- **Template** (`template.dfy`). It covers the `dots_style` and `admire_style`
  banner functions.
- **Factory method** (`factory_method.dfy`). The extractor is chosen by the
  path's ending. An unsupported path raises `ValueError`, which
  `extract_data_from` turns into `None`.

Some pieces are shared:

- `wrappers.dfy` holds `Option`/`Result`/`Outcome`. These stand for `None` and
  for the exceptions the code raises.
- `text.dfy` models the parts of Python's `str` that the demos use:
  - ASCII `upper`/`lower`;
  - `str()` of integers;
  - `sep.join`, and `split`, which is used to state that joining can be
    undone;
  - the string order;
  - `sorted()` of a set of strings.

Objects whose fields the code updates in place are classes: `Car`,
`CarPool`, the `Prototype` registry, `Memoizer`, `Server`, `OperatingSystem`,
`Test`, `Computer`, `ComputerBuilder` and `HardwareEngineer`. Values are
datatypes: websites and their attribute values, widgets, dispatch outcomes,
extractors and errors. Calls to `print`, and the random colours and positions
of the flyweight demo, become parameters or are dropped.

Where the code relies on Python semantics, the model states them:

- A `Car` or a `Website` is always true in a boolean test. So `if not obj` in
  `Car.__new__` and `if not found` in `Prototype.clone` only fire when the
  lookup returned `None`.
- A `Test` instance is always true too. So `LazyProperty.__get__` returns
  `None` only when it is called without an instance.
- `LazyProperty` has only a `__get__`. So after the first access, the
  instance's own `resource` entry shadows it and the method never runs
  again. The model keeps that entry as a separate field, `resourceAttr`.
- `memoize` keys its cache on the argument tuple. The decorated functions take
  one argument, so the cache is keyed by that integer.
- `fibonacci(1)` returns at once, so a cold call of `fibonacci(1)` caches only
  `{1}`. A cold `number_sum(n)` caches exactly `{0, …, n}`. `Reach` in
  `mymath.dfy` states this per function.

## Model

| member | source | states |
|---|---|---|
| Text.Upper | chapter13/template.py:19 | `s.upper()` on ASCII: same length, each character upper-cased on its own, no lower-case letter left |
| Text.Lower | chapter13/template.py:14 | `s.lower()` on ASCII: same length, each character lower-cased on its own, no upper-case letter left |
| Text.NatToString | chapter08/flyweight.py:30 | `str(n)` of a non-negative integer is a non-empty run of decimal digits without a leading zero |
| Text.NatToStringRoundTrip | chapter08/flyweight.py:30 | reading the digits of `str(n)` back gives `n`, so formatting loses nothing |
| Text.IntToString | chapter08/flyweight.py:30 | `str(i)` starts with `-` exactly for negative `i`, followed by the digits of `abs(i)` |
| Text.Join | chapter02/computer_builder.py:20 | `sep.join(parts)`: the parts with `sep` between each two; its partner is `Split` through `SplitJoin` |
| Text.Split | chapter02/computer_builder.py:20 | `s.split(c)`: a non-empty list of pieces, none containing `c` |
| Text.Less | chapter03/prototype.py:37 | Python's `<` on strings: lexicographic on code points, a proper prefix first; its properties are the lemmas below |
| Text.SplitJoin | chapter02/computer_builder.py:20 | splitting `sep.join(parts)` on a one-character separator gives back `parts` when no part contains it |
| Text.LessIrreflexive | chapter03/prototype.py:37 | Python's string order is irreflexive |
| Text.LessTransitive | chapter03/prototype.py:37 | Python's string order is transitive |
| Text.LessTotal | chapter03/prototype.py:37 | any two different strings are ordered one way or the other |
| Text.LeastExists | chapter03/prototype.py:37 | every non-empty set of strings has a least element |
| Text.LeastUnique | chapter03/prototype.py:37 | the least element is unique |
| Text.PrependLeast | chapter03/prototype.py:37 | putting the least element in front of a sorted enumeration of the rest gives a sorted enumeration of the whole set |
| Text.Sorted | chapter03/prototype.py:37 | `sorted()` of a set of strings holds every element exactly once, in strictly ascending order |
| Text.SortedUnique | chapter03/prototype.py:37 | a strictly ascending enumeration of a set is unique, so it is the one `sorted()` gives |
| Flyweight.AtMostThreeTypes | chapter08/flyweight.py:12 | any set of car types has at most three members |
| Flyweight.AllTypesCount | chapter08/flyweight.py:12 | the three car types are distinct |
| Flyweight.SubsetCardinality | chapter08/flyweight.py:12 | a subset is no larger than its superset, which bounds the pool size |
| Flyweight.TypeName | chapter08/flyweight.py:12 | `str(car_type)` is `CarType.` followed by the member's name |
| Flyweight.Car.constructor | chapter08/flyweight.py:23-25 | a new car has exactly the requested type in its one slot |
| Flyweight.Car.Render | chapter08/flyweight.py:28-30 | the message `render` prints for a car begins by naming that car's type; the car's state is only read |
| Flyweight.RenderMessage | chapter08/flyweight.py:30 | `render a car of type <type> and color <color> at (<x>, <y>)` begins with the part naming the type |
| Flyweight.RenderPrefixFree | chapter08/flyweight.py:29-30 | the part of a message that names one car type never begins the part naming another, so the start of a message fixes the type |
| Flyweight.RenderShowsType | chapter08/flyweight.py:28-30 | cars of different types never render the same message, whatever colour and position they are given |
| Flyweight.CarPool.constructor | chapter08/flyweight.py:17 | the pool starts empty |
| Flyweight.CarPool.Get | chapter08/flyweight.py:19-26 | a pooled type gives back the identical pooled car and leaves the pool unchanged; an absent type gives a fresh car of that type, which is added; existing entries are never replaced; each pooled car has the type it is stored under |
| Flyweight.CarPool.Size | chapter08/flyweight.py:60 | `len(Car.pool)` is the number of pooled types and never exceeds three |
| Flyweight.CarPool.SharedIdentity | chapter08/flyweight.py:21-26 | two pooled cars are the same object exactly when their types are equal |
| Flyweight.GetAll | chapter08/flyweight.py:19-26 | after any run of requests, the pool holds exactly the earlier types plus those requested; each request got the pooled car of its type; earlier entries are kept |
| Flyweight.Repeat | chapter08/flyweight.py:41-57 | `n` copies of one message |
| Flyweight.RenderRun | chapter08/flyweight.py:41-45 | one demo loop: `count` requests of one type render `count` copies of that type's message, and the pool gains that type and keeps its entries |
| Flyweight.Demo | chapter08/flyweight.py:34-66 | 18 renders in order (10 subcompact, 3 compact, 5 suv), 3 cars created, two subcompact requests give the same object, a subcompact and an suv do not |
| Prototype.SetAttributes | chapter03/prototype.py:28-29 | the `setattr` loop leaves the attributes as the old ones overridden by the keyword arguments |
| Prototype.NewWebsite | chapter03/prototype.py:19-29 | a website has `name`, `domain`, `description` and `author` with the given values, plus exactly the keyword arguments |
| Prototype.Str | chapter03/prototype.py:41 | `str(val)`: a string is itself and a tuple is parenthesised |
| Prototype.Repr | chapter03/prototype.py:41 | `repr` of a tuple element: a string in single quotes, anything else as `str` gives it |
| Prototype.Header | chapter03/prototype.py:33 | the first line is `Website "`, the name, then `"` and a newline |
| Prototype.InfoLine | chapter03/prototype.py:41 | an attribute line is the attribute, `: `, the value's `str`, then a newline |
| Prototype.InfoLines | chapter03/prototype.py:38-41 | the loop gives at most one line per attribute, and exactly one each, in order, when `name` is not among them |
| Prototype.SummaryLines | chapter03/prototype.py:31-42 | the pieces are the header followed by one line for each attribute other than `name`, in sorted order |
| Prototype.Summary | chapter03/prototype.py:31-43 | `str(website)` is the pieces joined with nothing between them, and begins with the header |
| Prototype.Without | chapter03/prototype.py:39-40 | skipping `name`: every attribute except `name`, and nothing else |
| Prototype.WithoutSorted | chapter03/prototype.py:37-40 | skipping an element keeps a sequence sorted |
| Prototype.Lines | chapter03/prototype.py:41 | one `attr: val` line per attribute, in the given order |
| Prototype.InfoLinesAre | chapter03/prototype.py:38-41 | skipping `name` inside the loop gives the same lines as leaving it out beforehand |
| Prototype.SummaryShape | chapter03/prototype.py:31-43 | `str(website)` joins the header `Website "<name>"`, then one `attr: val` line for every other attribute in ascending attribute order |
| Prototype.Prototype.constructor | chapter03/prototype.py:47-48 | the registry starts empty |
| Prototype.Prototype.Register | chapter03/prototype.py:50-51 | stores the object under the identifier, overwriting any earlier entry; every other entry is unchanged |
| Prototype.Prototype.Unregister | chapter03/prototype.py:53-54 | removes exactly that entry; an absent identifier raises `KeyError` and leaves the registry as it was |
| Prototype.Prototype.Clone | chapter03/prototype.py:56-64 | an unregistered identifier raises `ValueError("Incorrect object identifier: …")`; otherwise the clone has the override value for each override key and the original's value for every other key, override keys it did not have are added, and the registry is not changed |
| Prototype.DemoClone | chapter03/prototype.py:67-86 | the demo clone is named `ContentGardeningPlayground`, gains `creation_date` and keeps the original's `keywords`; the original keeps its own name and has no `creation_date` |
| MyMath.NumberSum | chapter05/mymath.py:27-33 | the body of `number_sum` for a non-negative argument; `NumberSumClosedForm` states its value |
| MyMath.Fibonacci | chapter05/mymath.py:36-42 | the body of `fibonacci` for a non-negative argument; `FibPairIsFibonacci` ties it to the linear iteration |
| MyMath.NumberSumClosedForm | chapter05/mymath.py:27-33 | `number_sum(n) == n(n+1)/2` |
| MyMath.FibPairIsFibonacci | chapter05/mymath.py:36-42 | the recurrence agrees with the linear pair iteration `(a, b) → (b, a+b)` from `(0, 1)` |
| MyMath.Eval | chapter05/mymath.py:26-42 | which of the two decorated functions runs: `number_sum` or `fibonacci` |
| MyMath.Upto | chapter05/mymath.py:33 | the arguments `0..n` |
| MyMath.ReachClosed | chapter05/mymath.py:33 | the arguments reached by a reached call are themselves reached |
| MyMath.ReachStep | chapter05/mymath.py:33 | the recursive calls of `fn(n)` reach what `fn(n)` reaches, except `n` itself |
| MyMath.Memoizer.constructor | chapter05/mymath.py:15-16 | `memoize(fn)` starts with an empty cache |
| MyMath.Memoizer.Call | chapter05/mymath.py:19-22 | the memoised call returns `Ok(fn(n))`; a cached argument is answered without entering `fn` and leaves the cache as it is; afterwards `n` is cached; existing entries are never overwritten; the cache gains exactly the arguments `fn(n)` reaches; a negative argument raises `AssertionError("n must be >= 0")` and caches nothing |
| MyMath.Memoizer.Invoke | chapter05/mymath.py:27-29 | the undecorated body enters `fn` once, raises `AssertionError` for negative arguments, returns `fn(n)` otherwise, and caches what its recursive calls reach, which never includes `n` |
| MyMath.Memoizer.NumberSumBody | chapter05/mymath.py:30-33 | `number_sum`'s body returns the sum of `1..n`, and its recursion through the decorator caches `0..n-1` |
| MyMath.Memoizer.FibonacciBody | chapter05/mymath.py:39-42 | `fibonacci`'s body returns the `n`-th Fibonacci number, and its two recursive calls through the decorator cache what they reach |
| MyMath.ColdNumberSum | chapter05/mymath.py:26-33 | a first `number_sum(n)` leaves exactly the keys `0..n` cached, each holding `k(k+1)/2` |
| Chain.Handle | chapter09/chain.py:22-32 | `widget.handle(event)`: the event is taken by its own handler or by a default one; depth 0 means the widget itself took it with a handler it has; the event goes up only from a widget without its handler that has a parent; a dropped event had no handler at the widget |
| Chain.Ancestry | chapter09/chain.py:19-20 | a widget's ancestry starts at the widget, follows the parent links and ends at a widget without a parent |
| Chain.FirstTaker | chapter09/chain.py:23-28 | the first widget of a chain with a handler for the event; none exactly when no widget has one |
| Chain.HandleResolves | chapter09/chain.py:22-32 | `handle` equals the rule over the ancestry: the nearest handler of the event, else the root's default handler, else dropped |
| Chain.ResolveMeans | chapter09/chain.py:22-32 | the rule's outcome: a taken event was taken by a chain widget that has the handler; an event handler is the nearest one; the default handler runs only at the root and only when no widget has a handler of the event; an event is dropped exactly when no widget handles it and the root has no default handler |
| Chain.OwnHandlerWins | chapter09/chain.py:23-26 | a widget with a handler for the event runs it itself, without consulting its parent; for the event `default` this is `handle_default` |
| Chain.DefaultOnlyAtRoot | chapter09/chain.py:27-30 | a widget with a parent never runs its own default handler for any other event |
| Chain.DemoMainWindow | chapter09/chain.py:35-40 | at the main window, `close` is handled and `down`, `paint` and `unhandled` go to the default handler |
| Chain.DemoSendDialog | chapter09/chain.py:43-63 | at the dialog, `paint` stays there and the other events reach the main window one link up |
| Chain.DemoMsgText | chapter09/chain.py:48-65 | at the message text, `down` stays there, `paint` reaches the dialog, and `unhandled` and `close` reach the main window two links up |
| Facade.Server.FileServer | chapter07/facade.py:43-46 | a new file server is named `FileServer`, prints as its name and is in state `new` |
| Facade.Server.ProcessServer | chapter07/facade.py:66-69 | a new process server is named `ProcessServer`, prints as its name and is in state `new` |
| Facade.Server.ToString | chapter07/facade.py:30-31 | `str(server)` is its name |
| Facade.Server.Boot | chapter07/facade.py:48-51 | `boot` makes the server running, from any state |
| Facade.Server.Kill | chapter07/facade.py:53-56 | `kill(restart)` gives `restart` when `restart` is true (the default) and `zombie` otherwise |
| Facade.Server.CreateFile | chapter07/facade.py:58-62 | only a file server has `create_file`, so it is callable only on one; it changes no server state |
| Facade.Server.CreateProcess | chapter07/facade.py:82-84 | only a process server has `create_process`, so it is callable only on one; it changes no server state |
| Facade.OperatingSystem.constructor | chapter07/facade.py:99-101 | the facade owns a new file server as `fs` and a new process server as `ps`, both in state `new` |
| Facade.OperatingSystem.Start | chapter07/facade.py:103-104 | `start` leaves both servers running |
| Facade.OperatingSystem.CreateFile | chapter07/facade.py:106-110 | forwards a file request to its file server; neither server's state changes |
| Facade.OperatingSystem.CreateProcess | chapter07/facade.py:112-113 | forwards a process request to its process server; neither server's state changes |
| Facade.Demo | chapter07/facade.py:116-120 | after the demo both servers are running |
| Lazy.Range | chapter08/lazy.py:28 | `tuple(range(n))` holds `0..n-1` in order |
| Lazy.Test.constructor | chapter08/lazy.py:18-21 | a new instance has `x == 'foo'`, `y == 'bar'`, `_resource` `None`, and no cached `resource` |
| Lazy.Test.ComputeResource | chapter08/lazy.py:23-29 | the decorated method runs once more, returns `(0, 1, 2, 3, 4)` and stores it in `_resource`; `x` and `y` are untouched |
| Lazy.Test.Resource | chapter08/lazy.py:8-14 | accessing `resource` gives `(0, 1, 2, 3, 4)`; the method runs only on the first access, and later accesses return the stored value without running it; `x` and `y` never change |
| Lazy.LazyGet | chapter08/lazy.py:8-14 | `__get__` without an instance returns `None` and caches nothing; with one it runs the method once and stores its value on the instance, whose `x` and `y` are unchanged |
| Lazy.Demo | chapter08/lazy.py:32-38 | two accesses give `(0, 1, 2, 3, 4)` twice for a single run of the method |
| Builder.Info | chapter02/computer_builder.py:15-19 | `str(computer)` is made of four lines |
| Builder.FormatInt | chapter02/computer_builder.py:17-18 | a size prints as `None` while unset; a non-negative size prints as the decimal digits that denote it, a negative one with a leading `-` |
| Builder.FormatStr | chapter02/computer_builder.py:19 | the card prints as `None` while unset, otherwise as itself |
| Builder.FormatIntOneLine | chapter02/computer_builder.py:17-18 | a formatted memory or disk size is on one line |
| Builder.InfoLinesRecovered | chapter02/computer_builder.py:15-20 | the computer's text splits back into its four lines, Serial, Memory, Hard Disk, Graphics Card, in that order, when serial and card are single lines |
| Builder.Computer.constructor | chapter02/computer_builder.py:9-13 | a new computer has the given serial and no memory, disk or card |
| Builder.Computer.ToString | chapter02/computer_builder.py:15-20 | `str(computer)` is its four lines joined by newlines; `InfoLinesRecovered` shows the lines can be read back |
| Builder.ComputerBuilder.constructor | chapter02/computer_builder.py:23-24 | a builder starts a fresh computer with serial `AG23385193` and nothing configured |
| Builder.ComputerBuilder.ConfigureMemory | chapter02/computer_builder.py:26-27 | sets the memory and leaves the other fields unchanged |
| Builder.ComputerBuilder.ConfigureHdd | chapter02/computer_builder.py:29-30 | sets the disk and leaves the other fields unchanged |
| Builder.ComputerBuilder.ConfigureGpu | chapter02/computer_builder.py:32-33 | sets the graphics card and leaves the other fields unchanged |
| Builder.HardwareEngineer.constructor | chapter02/computer_builder.py:36-37 | a new engineer has no builder |
| Builder.HardwareEngineer.ConstructComputer | chapter02/computer_builder.py:39-45 | a fresh builder and a fresh computer with serial `AG23385193` and exactly the given memory, disk and card, which the `computer` property then returns; nothing made before is modified |
| Builder.HardwareEngineer.CurrentComputer | chapter02/computer_builder.py:47-49 | the builder's computer, or `AttributeError` while there is no builder yet |
| Builder.ConstructTwice | chapter02/computer_builder.py:39-45 | two constructions give two distinct computers, and the second leaves the first's configuration as it was |
| Builder.DemoInfo | chapter02/computer_builder.py:15-19 | the demo computer's four lines |
| Builder.Demo | chapter02/computer_builder.py:51-57 | the printed text is `Serial Number: AG23385193`, `Memory: 8GB`, `Hard Disk: 500GB` and `Graphics Card: GeForce GTX 650 Ti` joined by newlines, and splitting it on newlines gives those four lines |
| Template.Capitalize | chapter13/template.py:14 | `capitalize()` on ASCII: same length, first character upper case, all others lower case |
| Template.Dots | chapter13/template.py:15 | `'.' * n` is `n` dots |
| Template.DotsStyle | chapter13/template.py:13-16 | `dots_style(m)` is ten dots, `capitalize(m)` and ten dots, of length `len(m) + 20` |
| Template.Chars | chapter13/template.py:20 | iterating over a string gives one piece per character |
| Template.JoinChars | chapter13/template.py:20 | `'!'.join(s)` has length `2·len(s) − 1` (0 for an empty `s`), with `s`'s characters at even positions and `!` at odd ones |
| Template.AdmireStyle | chapter13/template.py:18-20 | `admire_style(m)` has length `2·len(m) − 1` (0 when `m` is empty), even positions `upper(m[i])`, odd positions `!` |
| FactoryMethod.EndsWith | chapter01/factory_method.py:43-45 | `s.endswith(suffix)`: the last `len(suffix)` characters are `suffix` |
| FactoryMethod.EndsWithMeans | chapter01/factory_method.py:43-45 | `endswith(suffix)` holds exactly when the path is some string followed by `suffix` |
| FactoryMethod.JsonXmlExclusive | chapter01/factory_method.py:43-46 | no path ends in both `json` and `xml`, so the order of the tests does not matter |
| FactoryMethod.DataExtractionFactory | chapter01/factory_method.py:39-49 | the JSON extractor exactly for paths ending in `json` and the XML extractor exactly for those ending in `xml`; each holds the path unchanged; any other path raises `ValueError("Cannot extract data from <path>")` |
| FactoryMethod.ExtractDataFrom | chapter01/factory_method.py:52-58 | `None` exactly where the factory raises, otherwise the factory's extractor |
| FactoryMethod.DemoPaths | chapter01/factory_method.py:61-81 | `data/person.sq3` is refused, `data/movies.json` gets the JSON extractor and `data/person.xml` the XML extractor |

## Left out

- `print` output is left out everywhere: the console messages, the banner printing and the printed ids. `generate_banner` in `chapter13/template.py` is only printing.
- `cow_style` is left out. It is the `cowpy` library.
- `parsed_data` of the extractors is left out. It is JSON and XML file parsing. The extractor's construction-time printing is left out too.
- The `timeit` harness of `chapter05/mymath.py` is left out.
- The random colours and positions of the flyweight demo are parameters. One colour and one position stand for all 18 renders.
- Flyweight.Car.Render: the message it returns is the one the source prints. `color`, `x` and `y` are its parameters and are never stored on the car.
- Prototype: `copy.deepcopy` is not modelled over arbitrary object graphs. Attribute values are a finite datatype, so the copy is a value copy. Object identity of websites (`id(site1) != id(site2)`) has no counterpart: a clone is a new value, and the registered value cannot change through it.
- Prototype.NewWebsite requires that the keyword arguments do not repeat a positional parameter. Python itself rejects such a call with a `TypeError` at the call site, so it is not an error path of the constructor.
- Prototype: `str(val)` is modelled for `None`, integers, strings and tuples of these, which are the values the demo uses. `repr` of strings inside tuples does not escape quotes or special characters.
- Prototype: `site3` of the demo and the printing of the three websites are left out. `SummaryShape` states what `str` gives for any website.
- Text: `upper`, `lower` and `capitalize` are restricted to ASCII. Other characters are left unchanged, and there is no Unicode case mapping.
- MyMath: the cache is keyed by the single integer argument, not the argument tuple. `RecursionError` for deep recursion is not modelled, because integers and the call stack are unbounded here.
- MyMath.Memoizer.calls is a ghost count of how often the undecorated function is entered. It exists only to state that a cache hit does not call `fn`.
- Chain: a widget is modelled by the set of events it has `handle_<event>` methods for, so `hasattr(self, 'handle_' + event)` is set membership. The event object is reduced to its name. Parent chains are finite and acyclic by construction, as widget values.
- Facade: `User`, `Process`, `File`, `WindowServer` and `NetworkServer` hold no behaviour and are left out. The abstract base class `Server` and its two subclasses are one `Server` class with a named constructor for each subclass. The methods only one subclass has, `create_file` and `create_process`, require a server of that kind.
- Builder: the `memory`, `hdd` and `gpu` arguments are modelled as integers and a string, the types the demo passes. Python would accept any value.
- Lazy: the descriptor is modelled for the one property `resource` of `Test`, not as a generic wrapper of any method. `print(self.__dict__)` inside the method is left out.
- The other demos, abstract_factory.py, adapter.py, adaptee.py, proxy.py, command.py and memento.py, are not modelled. They are interactive input, printing, file-system calls, a missing external module and `pickle`.
