# cc.js code statistics, modelled in Dafny

`cc.js` is a command-line tool. It walks a directory tree and puts every
non-directory entry into one of three lists: files it counts, files whose
read fails, and files it ignores because their extension is not in the type
list. For each counted file it records the number of characters and of lines,
and it keeps running totals. Before the walk, `main` reads the command line:
`-l`/`--list`, `-sl`, `-fl` and `-il` choose which lists the report prints,
`-t`/`--type` replaces the type list, and at most one positional argument
names the directory, `.` by default. The report is a column of fixed-width
lines built by `print_line`.

This project models that core in nine modules:

- `Seqs`: the associativity of concatenation, which the proofs use.
- `Wrappers`: `Option`.
- `JsString`: the JavaScript string primitives the source relies on:
  `lastIndexOf`, one-argument `slice` with its negative-start rule, and
  `padEnd`.
- `Counter`: the read callback of `statistic_code` and its counting loop.
- `Classifier`: `check_type` and the default type list.
- `Walker`: the directory tree as a datatype, its depth-first list of files,
  and the in-scope / out-of-scope split.
- `Arguments`: the loop over `argv` in `main` and the choice of target.
- `Layout`: the strings `print_line` and `empty_line` build.
- `Aggregator`: the record `code_statistic_data`, modelled as the class
  `StatisticData`.

The methods follow the source's imperative code:

- `Counter.CountCode` is the counting `for` loop.
- `StatisticData.Init` is the loop of `init`.
- `StatisticData.AnalyseDirectory` and `StatisticData.AnalyseEntry` are the
  recursive walk. It pushes onto `promises` and onto `ignore_list`.
- `Arguments.ParseArgv` and `Arguments.CollectTypes` are the argument loop
  and its inner `-t` loop.
- `StatisticData.OnFulfilled` and `StatisticData.OnRejected` are the two
  handlers of the read promise.

Each method is proved against a specification function:

| method | specification function |
|---|---|
| `AnalyseDirectory` | `InScope`/`OutOfScope` of `Files` |
| `ParseArgv` | `Run` |
| `CountCode` | a count of `'\n'` |

The lemmas then state the properties of those functions:

- the walk partitions the files;
- the flags each end up set exactly when some argument sets them;
- the last `-t` decides the type list;
- the positional arguments are the non-flag arguments outside type lists;
- the totals do not depend on the order in which reads complete.

How `check_type` picks its key:

- `check_type` takes the key after the last `.` of the whole joined path,
  not of its last segment.
- A path with no `.` at all gives the whole path as its key, not `""`.
  `Classifier.NoDotKeyIsWholePath` states this.

## Model

| member | source | states |
|---|---|---|
| JsString.LastIndexOf | cc.js:97 | `lastIndexOf` returns -1 or an index of the text; `LastIndexOfSpec` states which one |
| JsString.LastIndexOfSpec | cc.js:97 | `lastIndexOf` is -1 exactly when the character is absent, and otherwise an index of it with no occurrence after |
| JsString.Slice | cc.js:165 | `slice(start)`, as `print_line` and `check_type` (line 97) use it, is never longer than the text; `SliceSpec` states which suffix it keeps |
| JsString.SliceSpec | cc.js:165 | `slice(start)` keeps a suffix: a non-negative start drops that many characters, a negative one keeps the last `-start` (all when shorter) |
| JsString.Repeat | cc.js:167 | the fill repeated to exactly `n` characters, starting with the fill and periodic in its length |
| JsString.RepeatOne | cc.js:167 | a one-character fill repeats that character at every position |
| JsString.PadEnd | cc.js:167 | `padEnd` leaves a long enough text (or an empty fill) alone, and otherwise keeps the text as prefix and fills up to exactly `n` |
| Classifier.TypeKey | cc.js:97 | the key `check_type` looks up is never longer than the path; `TypeKeySpec` and `TypeKeyUnique` state that it is what follows the last '.' |
| Classifier.CheckType | cc.js:96-99 | a path is in scope exactly when its key is in the type list; `KeyAfterLastDot`, `NoDotKeyIsWholePath` and `TrailingDotKeyIsEmpty` state the cases |
| Classifier.TypeKeySpec | cc.js:97 | the key contains no '.', is a suffix of the path, and is the whole path or follows a '.' |
| Classifier.TypeKeyUnique | cc.js:96-98 | any dot-free suffix that is the whole path or follows a '.' is the key: the key is what follows the last '.' |
| Classifier.NoDotKeyIsWholePath | cc.js:96-98 | with no '.' anywhere, the key is the whole path and `check_type` asks whether the path itself is a type |
| Classifier.TrailingDotKeyIsEmpty | cc.js:96-98 | a path ending in '.' has key `""` and is in scope exactly when `""` is a type |
| Classifier.KeyAfterLastDot | cc.js:96-98 | `prefix + "." + ext` with dot-free `ext` is in scope exactly when `ext` is a type, whatever the prefix holds |
| Counter.ReadCallbackAsWritten | cc.js:63-68 | the callback as written settles the read promise with exactly the read's outcome, and it throws a TypeError exactly when the read failed |
| Counter.ReadCallback | cc.js:63-68 | the corrected callback never throws and settles the read promise with exactly the read's outcome |
| Counter.Settlement | cc.js:62-69 | a promise stays unsettled exactly when the callback only throws |
| Counter.ReadErrorThrows | cc.js:64-67 | as written, every read error rejects with its message and then throws a TypeError; the corrected callback does not |
| Counter.CountCode | cc.js:72-78 | `char_num` is the length of the content and `line_num` is 1 plus its number of '\n' (1 line, 0 characters for empty content) |
| Walker.Files | cc.js:104-110 | the depth-first list of the paths `analyse_directory` meets, a directory's files where the directory is listed; `FilesAppend` and `FilesCount` state its properties |
| Walker.InScope | cc.js:112 | the paths `check_type` accepts, in listing order; `Partition` states that they are exactly the accepted ones |
| Walker.OutOfScope | cc.js:113 | the paths `check_type` rejects, in listing order; `Partition` states that they are exactly the rejected ones |
| Walker.InScopeAppend | cc.js:104-115 | the in-scope and out-of-scope lists of a concatenation are the concatenations of the parts' lists |
| Walker.InScopeSingle | cc.js:112-113 | a single file goes to the pending list exactly when `check_type` accepts it, and to the ignored list otherwise |
| Walker.WalkStep | cc.js:104-115 | one more listed entry appends its own files, in-scope files and ignored files after those of the entries before it |
| Walker.Partition | cc.js:101-117 | pending plus ignored count is the file count, together they hold every file exactly once, and each side agrees with `check_type` |
| Walker.PartitionCounts | cc.js:111-114 | the accepted and the rejected paths together are the paths, each exactly once |
| Walker.PartitionSides | cc.js:111-114 | every accepted path passes `check_type` and every rejected path fails it |
| Walker.FilesAppend | cc.js:104 | the files of two listings one after the other are the files of the first followed by those of the second |
| Walker.FilesCount | cc.js:104-110 | the depth-first walk meets exactly as many paths as the tree has non-directory entries |
| Arguments.Apply | cc.js:179-206 | one argument other than `-t` never changes the type list; `RunOptions` and `RunRemainStep` state what it sets |
| Arguments.Run | cc.js:178-207 | the whole argument loop from a position on; `RunOptions`, `RunTypeList`, `RunKeepsTypeList` and `RunRemain` state its outcome |
| Arguments.TypesEnd | cc.js:187-192 | the `-t` list runs from its start to the first argument starting with '-', or to the end |
| Arguments.CollectTypes | cc.js:186-192 | the inner loop of `-t` stops at `TypesEnd` and has collected exactly the arguments before it |
| Arguments.ParseArgv | cc.js:175-207 | the argument loop terminates with the options, type list and positional arguments of `Run` |
| Arguments.RunOptions | cc.js:179-205 | each option ends up set exactly when it was set before or some argument sets it: `-l`/`--list` all three, `-sl`, `-fl`, `-il` their own |
| Arguments.RunKeepsTypeList | cc.js:185-193 | without `-t`/`--type` the type list stays as it was |
| Arguments.RunTypeList | cc.js:185-193 | after the last `-t`, the type list holds exactly the arguments after it up to the first one starting with '-' |
| Arguments.TypeFlagLast | cc.js:185-193 | a `-t` as the last argument leaves the type list empty |
| Arguments.TypeListThenFlag | cc.js:185-201 | the argument that ends a type list is then handled as a flag: `-t c js -sl src` gives types {c, js}, the success option, and positional `src` |
| Arguments.SkipTypeList | cc.js:187-192 | arguments inside a type list contribute no positional argument |
| Arguments.RunRemain | cc.js:206 | from outside a type list, the loop appends exactly the positional arguments to `remain`, in order |
| Arguments.RunRemainStep | cc.js:194-206 | one argument other than `-t`, outside a type list, is consumed alone and adds itself to `remain` exactly when it is not a flag |
| Arguments.RunRemainAtTypeFlag | cc.js:185-193 | a `-t` and its list append nothing to `remain` |
| Arguments.SelectTarget | cc.js:208-213 | more than one positional argument rejects the run; otherwise the target is the argument, or "." when there is none or it is empty |
| Arguments.ChooseTarget | cc.js:175-213 | over a whole command line: rejected exactly when there are two or more positional arguments, the single one is the target, none gives "." |
| Layout.Fill | cc.js:163 | the fill is never empty: an empty fill falls back to a space |
| Layout.PrintLine | cc.js:160-168 | `print_line`'s line is at least 41 characters and ends with '/'; `PrintLineShape` states its exact layout |
| Layout.PrintLineShape | cc.js:160-168 | a line ends with '/', starts with the text kept from index 0, `50 - L` (41 ≤ L ≤ 50) or 50 (L > 50), and is 41 characters, padded with the fill, when that part fits |
| Layout.ShortLine | cc.js:164-167 | a text of at most 40 characters is padded to 40 and closed with '/', 41 characters in all |
| Layout.LongLineOverflows | cc.js:165 | as written, 100 characters give a line of 51, and 51 characters keep only their last one |
| Layout.PrintLineFixed | cc.js:160-168 | the corrected line is always 41 characters closed by '/', keeps a short text as prefix and a long text's last 30 characters, and agrees with `print_line` on short texts |
| Layout.EmptyLine | cc.js:170-172 | `empty_line` is 40 dashes followed by '/' |
| Aggregator.StatisticData.constructor | cc.js:51-59 | the initial record: zero totals, three empty lists, no types, no options |
| Aggregator.StatisticData.Init | cc.js:119-122 | `init`'s loop adds every default extension to the type list and changes nothing else |
| Aggregator.StatisticData.StatisticCode | cc.js:61-94 | a successful read appends its `{filename, char_num, line_num}` record and adds exactly those counts; a failed one appends `{filename, error}` and changes nothing else; the totals stay the sums |
| Aggregator.StatisticData.OnFulfilled | cc.js:71-86 | the fulfilment handler appends the file's record and adds its length and line count to the totals, keeping them equal to the sums |
| Aggregator.StatisticData.OnRejected | cc.js:87-92 | the rejection handler appends one failure record and touches nothing else |
| Aggregator.StatisticData.SettleAll | cc.js:79-92 | settling reads one after another appends exactly the records of the completions, in completion order, and keeps the totals equal to the sums |
| Aggregator.StatisticData.AnalyseDirectory | cc.js:101-117 | the returned pending files are the in-scope files of the tree and `ignore_list` gains the others, both in depth-first listing order |
| Aggregator.StatisticData.AnalyseEntry | cc.js:104-115 | a directory entry recurses; any other entry is pending when `check_type` accepts its joined path and is ignored otherwise |
| Aggregator.StatisticData.ParseCommandLine | cc.js:175-213 | the argument loop writes back the options and type list of `Run`, and the target is chosen from its positional arguments |
| Aggregator.TotalsSnoc | cc.js:84-85 | appending a record adds exactly its counts to both totals |
| Aggregator.TotalsAppend | cc.js:84-85 | the totals of two record lists one after the other add up |
| Aggregator.TotalsRemove | cc.js:84-85 | taking one record out of any position takes exactly its counts out of the totals |
| Aggregator.TotalsPermutation | cc.js:84-85 | the totals depend only on the multiset of records, not on their order |
| Aggregator.SuccessesAppend | cc.js:79-86 | the success records of two runs of completions are those of the first followed by those of the second |
| Aggregator.FailuresAppend | cc.js:87-92 | the failure records of two runs of completions are those of the first followed by those of the second |
| Aggregator.SettleAppend | cc.js:79-92 | both record lists of a concatenation of completions are the concatenations |
| Aggregator.SettleStep | cc.js:79-92 | one more completion adds its own records after those settled before |
| Aggregator.SettleRemove | cc.js:79-92 | taking any one completion out takes exactly its own records out of both lists |
| Aggregator.SuccessesRemove | cc.js:79-86 | taking a completion out takes its success record out of the success multiset |
| Aggregator.FailuresRemove | cc.js:87-92 | taking a completion out takes its failure record out of the failure multiset |
| Aggregator.SettlePermutation | cc.js:79-92 | completing the same reads in another order gives the same records, up to order |
| Aggregator.CompletionOrderIrrelevant | cc.js:79-92 | any two completion orders of the same reads give the same totals and the same records |
| Aggregator.RecordsFromCompletions | cc.js:71-92 | every success record comes from a fulfilled read of its file and counts at least one line; every failure record from a rejected read |
| Aggregator.SettleFilesStep | cc.js:79-92 | each completion produces exactly one record, for its own file |
| Aggregator.SettleFiles | cc.js:79-92 | there are as many records as completions, and their files are exactly the completed files |
| Aggregator.AnalyseStep | cc.js:104-115 | one more listed entry extends the pending list and `ignore_list` by exactly that entry's own |
| Aggregator.IgnoredAppend | cc.js:113 | the ignore records of two path lists one after the other are the concatenation |
| Aggregator.ScanPartition | cc.js:101-117 | when every pending read completes once, in any order, success, failure and ignore lists together hold every file of the tree exactly once |
| Aggregator.ExampleFiles | cc.js:101-110 | the walk of a tree with `main.go`, `image.png` and `lib/util.go` meets them in that order |
| Aggregator.ClassifyThree | cc.js:112-113 | three files of which only the middle one is rejected split into the outer two pending and the middle one ignored |
| Aggregator.ExampleClassify | cc.js:96-98 | with the default types the two `.go` files are in scope and `image.png` is ignored |
| Aggregator.ExampleSettled | cc.js:79-86 | the two reads of the example give their two records in completion order |
| Aggregator.ExampleCounts | cc.js:72-78 | "a\nb\nc" counts 3 lines and 5 characters, "x" 1 line and 1 character |
| Aggregator.TotalsOfTwo | cc.js:84-85 | two records total their own counts |
| Aggregator.ExampleTotals | cc.js:79-86 | the example's two records total 4 lines and 6 characters |
| Aggregator.ExampleScan | cc.js:101-117 | the whole example scan: two files read, one ignored, 4 lines and 6 characters |

## Left out

- Filesystem calls (`fs.readFile`, `fs.readdirSync`, `fs.lstatSync`) are modelled by their results:
  - a directory listing is given as an `Entry` tree whose kinds `lstat` has already decided;
  - each read is given as a `ReadOutcome`.
  A listing that fails and `path.resolve` are not modelled.
- `path.join` is taken as `pwd + "/" + name`. Its normalisation (removing `./`, doubled separators and `..`) is not modelled. For example, a file under the root `.` is `./name` here, where `node` would have `name`.
- The promise machinery is concurrent, so the model does not run it. The reads complete in a sequence of the caller's choosing: `SettleAll` applies them one after another, and `CompletionOrderIrrelevant` shows that the order does not affect the totals or the records. The `Promise.allSettled` polyfill (cc.js:124-149) is left out. For an empty list of promises it never resolves, because `count` starts at 0 and no `finally` handler ever runs.
- `format_data` (cc.js:152-158) uses floating point (`Math.log2`, `Math.pow`, `toFixed`), so it is not modelled. Also, for zero characters its unit index is `-Infinity`.
- The dispatch at cc.js:214-223 is left out, together with the report printing and sorting (cc.js:224-268), because both are I/O glue. `stat.isDirectory` is tested without being called, so it is always truthy, and a single-file root is always passed to `analyse_directory`. The single-file path of `statistic_code(target)` is therefore never reached.
- `console.log` and `console.error` are left out. `Layout` models the string `print_line` prints, and `SelectTarget` returns `WrongArgv` where `main` prints "Wrong argv !!!" and returns.
- `type_list` is modelled as a set of strings. In the source it is a plain object, so a key such as `constructor` or `toString` is truthy through the prototype chain even when the user never added it.
- Text is modelled as a sequence of characters. `code.length` counts UTF-16 code units, while `for…of` iterates code points; for text outside the Basic Multilingual Plane, `char_num` differs from the model's length. The count of '\n' is the same either way.
- `Aggregator.StatisticData.AnalyseEntry` is the body of the loop of `analyse_directory`, given a method of its own. Likewise `Arguments.CollectTypes` is the inner `while` of `-t` and `StatisticData.OnFulfilled`/`OnRejected` are the two handlers of `.then`. Each keeps the source's statements and order.
- `StatisticData.StatisticCode` settles the read with the corrected callback (`Counter.ReadCallback`), so it does not model the uncaught TypeError that every read error causes in the source (see Findings).

## Findings

| source | as written | input that shows it | evidently intended | confidence | as-written member | corrected member |
|---|---|---|---|---|---|---|
| cc.js:164-166 | an overlong text is cut with the slice start `maxLength - length + 10`: a text over 50 characters keeps only its last `length - 50`, and one of 41 to 50 loses only its first `50 - length` | a 100-character text gives a 51-character line; a 51-character text keeps only its last character | keep the last `maxLength - 10` characters, start `length - maxLength + 10`, so every line is 41 characters wide | not executed; high: the guard exists to bound the width | Layout.LongLineOverflows | Layout.PrintLineFixed |
| cc.js:64-67 | on an error the callback calls `reject(error)` and then falls through to `data.toString()` with `data` undefined, which throws a TypeError out of the `fs` callback. Nothing catches it, so `node` ends the process at the first failed read: no report is printed and `fail_list` never reaches the user | any read that fails, for example a file without read permission | reject and return, so only the rejection handler runs | not executed; high: the rejection handler at cc.js:87-92 exists for this case | Counter.ReadErrorThrows | Counter.ReadCallback |
