/**
 * `code_statistic_data`, the one shared record of a scan, with the
 * operations that update it: `init`'s loading of the type list, the
 * command-line loop, the directory walk and the settling of the reads.
 */
module Aggregator {
  import opened Wrappers
  import opened Seqs
  import opened Classifier
  import opened Counter
  import opened Walker
  import opened Arguments

  /** An entry of `success_list`. */
  datatype SuccessRecord = SuccessRecord(filename: string, charNum: nat, lineNum: nat)

  /** An entry of `fail_list`; `error` is the error's `toString()`. */
  datatype FailRecord = FailRecord(filename: string, error: string)

  /** An entry of `ignore_list`. */
  datatype IgnoreRecord = IgnoreRecord(filename: string)

  /** A read that has settled: the file and what reading it gave. */
  datatype Completion = Completion(filename: string, read: ReadOutcome)

  /** The sum of the records' line counts. */
  function TotalLines(records: seq<SuccessRecord>): nat
  {
    if records == [] then 0
    else TotalLines(records[..|records| - 1]) + records[|records| - 1].lineNum
  }

  /** The sum of the records' character counts. */
  function TotalChars(records: seq<SuccessRecord>): nat
  {
    if records == [] then 0
    else TotalChars(records[..|records| - 1]) + records[|records| - 1].charNum
  }

  /** The record the fulfilment handler makes for a file with content `code`. */
  function RecordOf(filename: string, code: string): SuccessRecord
  {
    SuccessRecord(filename, |code|, 1 + multiset(code)['\n'])
  }

  /** The success record a single completion produces: one for a fulfilled read, none otherwise. */
  function SuccessOf(c: Completion): seq<SuccessRecord>
  {
    match c.read
    case Ok(code) => [RecordOf(c.filename, code)]
    case Err(_) => []
  }

  /** The failure record a single completion produces: one for a rejected read, none otherwise. */
  function FailureOf(c: Completion): seq<FailRecord>
  {
    match c.read
    case Ok(_) => []
    case Err(msg) => [FailRecord(c.filename, msg)]
  }

  /** The success records the completions produce, in completion order. */
  function Successes(completions: seq<Completion>): seq<SuccessRecord>
  {
    if completions == [] then []
    else Successes(completions[..|completions| - 1]) + SuccessOf(completions[|completions| - 1])
  }

  /** The failure records the completions produce, in completion order. */
  function Failures(completions: seq<Completion>): seq<FailRecord>
  {
    if completions == [] then []
    else Failures(completions[..|completions| - 1]) + FailureOf(completions[|completions| - 1])
  }

  class StatisticData {
    var totalLineNum: nat
    var totalCharNum: nat
    var ignoreList: seq<IgnoreRecord>
    var successList: seq<SuccessRecord>
    var failList: seq<FailRecord>
    var typeList: set<string>
    var option: Options

    /** The totals are the sums over `success_list`. */
    ghost predicate Valid()
      reads this
    {
      totalLineNum == TotalLines(successList) &&
      totalCharNum == TotalChars(successList)
    }

    /** The initial value of `code_statistic_data`. */
    constructor ()
      ensures Valid()
      ensures totalLineNum == 0 && totalCharNum == 0
      ensures ignoreList == [] && successList == [] && failList == []
      ensures typeList == {} && option == NoOptions
    {
      totalLineNum, totalCharNum := 0, 0;
      ignoreList, successList, failList := [], [], [];
      typeList, option := {}, NoOptions;
    }

    /** The loop of `init` that marks every default extension in the type list. */
    method Init()
      modifies this
      ensures typeList == old(typeList) + set t | t in DefaultTypeList
      ensures totalLineNum == old(totalLineNum) && totalCharNum == old(totalCharNum)
      ensures ignoreList == old(ignoreList) && successList == old(successList) && failList == old(failList)
      ensures option == old(option)
    {
      for i := 0 to |DefaultTypeList|
        invariant typeList == old(typeList) + set t | t in DefaultTypeList[..i]
        invariant totalLineNum == old(totalLineNum) && totalCharNum == old(totalCharNum)
        invariant ignoreList == old(ignoreList) && successList == old(successList) && failList == old(failList)
        invariant option == old(option)
      {
        assert DefaultTypeList[..i + 1] == DefaultTypeList[..i] + [DefaultTypeList[i]];
        typeList := typeList + {DefaultTypeList[i]};
      }
      assert DefaultTypeList[..|DefaultTypeList|] == DefaultTypeList;
    }

    /**
     * The handlers of `statistic_code` once the read of `filename` has
     * settled: a success appends its record and adds its counts to the
     * totals; a failure appends `{filename, error}` and changes nothing else.
     */
    method StatisticCode(filename: string, read: ReadOutcome)
      requires Valid()
      modifies this
      ensures Valid()
      ensures read.Ok? ==>
        successList == old(successList) + [RecordOf(filename, read.content)] &&
        totalCharNum == old(totalCharNum) + |read.content| &&
        totalLineNum == old(totalLineNum) + 1 + multiset(read.content)['\n'] &&
        failList == old(failList)
      ensures read.Err? ==>
        failList == old(failList) + [FailRecord(filename, read.msg)] &&
        successList == old(successList) &&
        totalCharNum == old(totalCharNum) && totalLineNum == old(totalLineNum)
      ensures ignoreList == old(ignoreList) && typeList == old(typeList) && option == old(option)
    {
      var settled := Settlement(ReadCallback(read)).value;
      match settled
      case Ok(code) => OnFulfilled(filename, code);
      case Err(error) => OnRejected(filename, error);
    }

    /** The fulfilment handler: count the content, append its record, add to the totals. */
    method OnFulfilled(filename: string, code: string)
      requires Valid()
      modifies this
      ensures Valid()
      ensures successList == old(successList) + [RecordOf(filename, code)]
      ensures totalCharNum == old(totalCharNum) + |code|
      ensures totalLineNum == old(totalLineNum) + 1 + multiset(code)['\n']
      ensures failList == old(failList) && ignoreList == old(ignoreList)
      ensures typeList == old(typeList) && option == old(option)
    {
      var charNum, lineNum := CountCode(code);
      var record := SuccessRecord(filename, charNum, lineNum);
      TotalsSnoc(successList, record);
      successList := successList + [record];
      totalCharNum := totalCharNum + charNum;
      totalLineNum := totalLineNum + lineNum;
    }

    /** The rejection handler: append `{filename, error}` to `fail_list`, nothing else. */
    method OnRejected(filename: string, error: string)
      requires Valid()
      modifies this`failList
      ensures Valid()
      ensures failList == old(failList) + [FailRecord(filename, error)]
    {
      failList := failList + [FailRecord(filename, error)];
    }

    /**
     * The reads settle one after another in `completions` order: every
     * completion adds exactly one record, and the invariant holds after each.
     */
    method SettleAll(completions: seq<Completion>)
      requires Valid()
      modifies this
      ensures Valid()
      ensures successList == old(successList) + Successes(completions)
      ensures failList == old(failList) + Failures(completions)
      ensures ignoreList == old(ignoreList) && typeList == old(typeList) && option == old(option)
    {
      for i := 0 to |completions|
        invariant Valid()
        invariant successList == old(successList) + Successes(completions[..i])
        invariant failList == old(failList) + Failures(completions[..i])
        invariant ignoreList == old(ignoreList) && typeList == old(typeList) && option == old(option)
      {
        SettleStep(completions, i);
        AppendAssoc(old(successList), Successes(completions[..i]), SuccessOf(completions[i]));
        AppendAssoc(old(failList), Failures(completions[..i]), FailureOf(completions[i]));
        StatisticCode(completions[i].filename, completions[i].read);
      }
      assert completions[..|completions|] == completions;
    }

    /**
     * `analyse_directory(pwd)` over the listing `directory`: returns the
     * in-scope files, whose reads are left pending, and appends the others to
     * `ignore_list`, both in depth-first listing order.
     */
    method AnalyseDirectory(pwd: string, directory: seq<Entry>) returns (promises: seq<string>)
      modifies this`ignoreList
      ensures promises == InScope(Files(pwd, directory), typeList)
      ensures ignoreList == old(ignoreList) + Ignored(OutOfScope(Files(pwd, directory), typeList))
      decreases directory, 1
    {
      promises := [];
      ghost var types := typeList;
      for i := 0 to |directory|
        invariant promises == InScope(Files(pwd, directory[..i]), types)
        invariant ignoreList == old(ignoreList) + Ignored(OutOfScope(Files(pwd, directory[..i]), types))
      {
        AnalyseStep(pwd, directory, i, types);
        var found := AnalyseEntry(pwd, directory[i]);
        AppendAssoc(old(ignoreList), Ignored(OutOfScope(Files(pwd, directory[..i]), types)),
          Ignored(OutOfScope(EntryFiles(pwd, directory[i]), types)));
        promises := promises + found;
      }
      assert directory[..|directory|] == directory;
    }

    /**
     * One iteration of `analyse_directory`'s loop: a directory is walked
     * recursively; any other entry is pushed as a pending read when
     * `check_type` accepts its joined path, and onto `ignore_list` otherwise.
     */
    method AnalyseEntry(pwd: string, iter: Entry) returns (promises: seq<string>)
      modifies this`ignoreList
      ensures promises == InScope(EntryFiles(pwd, iter), typeList)
      ensures ignoreList == old(ignoreList) + Ignored(OutOfScope(EntryFiles(pwd, iter), typeList))
      decreases iter, 0
    {
      var filename := Join(pwd, iter.name);
      if iter.Dir? {
        promises := AnalyseDirectory(filename, iter.children);
      } else {
        InScopeSingle(filename, typeList);
        if CheckType(filename, typeList) {
          promises := [filename];
        } else {
          promises := [];
          assert Ignored([filename]) == [IgnoreRecord(filename)];
          ignoreList := ignoreList + [IgnoreRecord(filename)];
        }
      }
    }

    /**
     * The argument loop of `main` and its choice of target: the loop updates
     * the options and the type list of `code_statistic_data`, and the
     * positional arguments decide the target.
     */
    method ParseCommandLine(argv: seq<string>) returns (target: Target)
      modifies this
      ensures var st := Run(argv, 0, ArgState(old(option), old(typeList), []));
        option == st.option && typeList == st.typeList && target == SelectTarget(st.remain)
      ensures totalLineNum == old(totalLineNum) && totalCharNum == old(totalCharNum)
      ensures ignoreList == old(ignoreList) && successList == old(successList) && failList == old(failList)
    {
      var st := ParseArgv(argv, ArgState(option, typeList, []));
      option, typeList := st.option, st.typeList;
      target := SelectTarget(st.remain);
    }
  }

  /** One more entry of a listing extends both of the walk's lists by that entry's own. */
  lemma AnalyseStep(pwd: string, directory: seq<Entry>, i: nat, types: set<string>)
    requires i < |directory|
    ensures InScope(Files(pwd, directory[..i + 1]), types) ==
      InScope(Files(pwd, directory[..i]), types) + InScope(EntryFiles(pwd, directory[i]), types)
    ensures Ignored(OutOfScope(Files(pwd, directory[..i + 1]), types)) ==
      Ignored(OutOfScope(Files(pwd, directory[..i]), types)) + Ignored(OutOfScope(EntryFiles(pwd, directory[i]), types))
  {
    WalkStep(pwd, directory, i, types);
    IgnoredAppend(OutOfScope(Files(pwd, directory[..i]), types), OutOfScope(EntryFiles(pwd, directory[i]), types));
  }

  /**
   * Every success record comes from a fulfilled read of its own file and
   * counts at least one line; every failure record from a rejected one.
   */
  lemma {:induction false} RecordsFromCompletions(completions: seq<Completion>)
    ensures forall r :: r in Successes(completions) ==>
      r.lineNum >= 1 && exists c :: c in completions && c.read.Ok? && r == RecordOf(c.filename, c.read.content)
    ensures forall r :: r in Failures(completions) ==>
      exists c :: c in completions && c.read.Err? && r == FailRecord(c.filename, c.read.msg)
  {
    if completions != [] {
      var init, last := completions[..|completions| - 1], completions[|completions| - 1];
      RecordsFromCompletions(init);
      assert forall c :: c in init ==> c in completions;
    }
  }

  /** One more completion adds its own records to the settled ones. */
  lemma SettleStep(completions: seq<Completion>, i: nat)
    requires i < |completions|
    ensures Successes(completions[..i + 1]) == Successes(completions[..i]) + SuccessOf(completions[i])
    ensures Failures(completions[..i + 1]) == Failures(completions[..i]) + FailureOf(completions[i])
  {
    assert completions[..i + 1][..i] == completions[..i];
  }

  /** The `ignore_list` entries for the given paths. */
  function Ignored(files: seq<string>): seq<IgnoreRecord>
  {
    if files == [] then [] else Ignored(files[..|files| - 1]) + [IgnoreRecord(files[|files| - 1])]
  }

  lemma {:induction false} IgnoredAppend(a: seq<string>, b: seq<string>)
    ensures Ignored(a + b) == Ignored(a) + Ignored(b)
    decreases |b|
  {
    if b == [] {
      assert a + b == a;
    } else {
      assert (a + b)[..|a + b| - 1] == a + b[..|b| - 1];
      IgnoredAppend(a, b[..|b| - 1]);
    }
  }

  /** The paths of a list of records, in order. */
  function SuccessFiles(records: seq<SuccessRecord>): seq<string>
  {
    if records == [] then [] else SuccessFiles(records[..|records| - 1]) + [records[|records| - 1].filename]
  }

  function FailFiles(records: seq<FailRecord>): seq<string>
  {
    if records == [] then [] else FailFiles(records[..|records| - 1]) + [records[|records| - 1].filename]
  }

  function CompletionFiles(completions: seq<Completion>): seq<string>
  {
    if completions == [] then [] else CompletionFiles(completions[..|completions| - 1]) + [completions[|completions| - 1].filename]
  }

  /** Appending one record adds its counts to the totals. */
  lemma TotalsSnoc(records: seq<SuccessRecord>, r: SuccessRecord)
    ensures TotalLines(records + [r]) == TotalLines(records) + r.lineNum
    ensures TotalChars(records + [r]) == TotalChars(records) + r.charNum
  {
    assert (records + [r])[..|records|] == records;
  }

  lemma {:induction false} TotalsAppend(a: seq<SuccessRecord>, b: seq<SuccessRecord>)
    ensures TotalLines(a + b) == TotalLines(a) + TotalLines(b)
    ensures TotalChars(a + b) == TotalChars(a) + TotalChars(b)
    decreases |b|
  {
    if b == [] {
      assert a + b == a;
    } else {
      assert (a + b)[..|a + b| - 1] == a + b[..|b| - 1];
      TotalsAppend(a, b[..|b| - 1]);
    }
  }

  lemma {:induction false} SuccessesAppend(a: seq<Completion>, b: seq<Completion>)
    ensures Successes(a + b) == Successes(a) + Successes(b)
    decreases |b|
  {
    if b == [] {
      assert a + b == a;
    } else {
      var init, last := b[..|b| - 1], b[|b| - 1];
      assert (a + b)[..|a + b| - 1] == a + init && (a + b)[|a + b| - 1] == last;
      SuccessesAppend(a, init);
      AppendAssoc(Successes(a), Successes(init), SuccessOf(last));
    }
  }

  lemma {:induction false} FailuresAppend(a: seq<Completion>, b: seq<Completion>)
    ensures Failures(a + b) == Failures(a) + Failures(b)
    decreases |b|
  {
    if b == [] {
      assert a + b == a;
    } else {
      var init, last := b[..|b| - 1], b[|b| - 1];
      assert (a + b)[..|a + b| - 1] == a + init && (a + b)[|a + b| - 1] == last;
      FailuresAppend(a, init);
      AppendAssoc(Failures(a), Failures(init), FailureOf(last));
    }
  }

  /** Settling two runs of completions one after the other settles their concatenation. */
  lemma SettleAppend(a: seq<Completion>, b: seq<Completion>)
    ensures Successes(a + b) == Successes(a) + Successes(b)
    ensures Failures(a + b) == Failures(a) + Failures(b)
  {
    SuccessesAppend(a, b);
    FailuresAppend(a, b);
  }

  /** Taking one element out of a sequence takes it out of its multiset. */
  lemma RemoveOne<T>(s: seq<T>, j: nat)
    requires j < |s|
    ensures multiset(s[..j] + s[j + 1..]) == multiset(s) - multiset{s[j]}
  {
    assert s == s[..j] + [s[j]] + s[j + 1..];
  }

  /** Taking one record out takes its counts out of the totals. */
  lemma TotalsRemove(s: seq<SuccessRecord>, j: nat)
    requires j < |s|
    ensures TotalLines(s) == TotalLines(s[..j] + s[j + 1..]) + s[j].lineNum
    ensures TotalChars(s) == TotalChars(s[..j] + s[j + 1..]) + s[j].charNum
  {
    var head, tail := s[..j + 1], s[j + 1..];
    assert head[..j] == s[..j] && head[j] == s[j];
    TotalsAppend(head, tail);
    TotalsAppend(s[..j], tail);
    assert head + tail == s;
  }

  /** The totals depend only on which records there are, not on the order they came in. */
  lemma {:induction false} TotalsPermutation(s1: seq<SuccessRecord>, s2: seq<SuccessRecord>)
    requires multiset(s1) == multiset(s2)
    ensures TotalLines(s1) == TotalLines(s2) && TotalChars(s1) == TotalChars(s2)
    decreases |s1|
  {
    if s1 == [] {
      assert |s2| == |multiset(s2)| == 0;
    } else {
      var x, init := s1[|s1| - 1], s1[..|s1| - 1];
      RemoveOne(s1, |s1| - 1);
      assert s1[|s1| - 1 + 1..] == [];
      assert x in multiset(s2);
      var j :| 0 <= j < |s2| && s2[j] == x;
      RemoveOne(s2, j);
      TotalsPermutation(init, s2[..j] + s2[j + 1..]);
      TotalsRemove(s2, j);
    }
  }

  /** Taking one completion out takes its own records out, whatever its position. */
  lemma SettleRemove(c: seq<Completion>, j: nat)
    requires j < |c|
    ensures multiset(Successes(c)) == multiset(Successes(c[..j] + c[j + 1..])) + multiset(SuccessOf(c[j]))
    ensures multiset(Failures(c)) == multiset(Failures(c[..j] + c[j + 1..])) + multiset(FailureOf(c[j]))
  {
    SuccessesRemove(c, j);
    FailuresRemove(c, j);
  }

  lemma SuccessesRemove(c: seq<Completion>, j: nat)
    requires j < |c|
    ensures multiset(Successes(c)) == multiset(Successes(c[..j] + c[j + 1..])) + multiset(SuccessOf(c[j]))
  {
    assert c == c[..j + 1] + c[j + 1..];
    SettleStep(c, j);
    SuccessesAppend(c[..j + 1], c[j + 1..]);
    SuccessesAppend(c[..j], c[j + 1..]);
  }

  lemma FailuresRemove(c: seq<Completion>, j: nat)
    requires j < |c|
    ensures multiset(Failures(c)) == multiset(Failures(c[..j] + c[j + 1..])) + multiset(FailureOf(c[j]))
  {
    assert c == c[..j + 1] + c[j + 1..];
    SettleStep(c, j);
    FailuresAppend(c[..j + 1], c[j + 1..]);
    FailuresAppend(c[..j], c[j + 1..]);
  }

  /** Settling the same completions in another order gives the same records, up to order. */
  lemma {:induction false} SettlePermutation(c1: seq<Completion>, c2: seq<Completion>)
    requires multiset(c1) == multiset(c2)
    ensures multiset(Successes(c1)) == multiset(Successes(c2))
    ensures multiset(Failures(c1)) == multiset(Failures(c2))
    decreases |c1|
  {
    if c1 == [] {
      assert |c2| == |multiset(c2)| == 0;
    } else {
      var x, init := c1[|c1| - 1], c1[..|c1| - 1];
      RemoveOne(c1, |c1| - 1);
      assert c1[|c1| - 1 + 1..] == [];
      assert x in multiset(c2);
      var j :| 0 <= j < |c2| && c2[j] == x;
      RemoveOne(c2, j);
      SettlePermutation(init, c2[..j] + c2[j + 1..]);
      SettleRemove(c2, j);
      SettleRemove(c1, |c1| - 1);
    }
  }

  /**
   * The order in which the reads complete does not matter: two orders of the
   * same completions give the same totals and the same records.
   */
  lemma CompletionOrderIrrelevant(c1: seq<Completion>, c2: seq<Completion>)
    requires multiset(c1) == multiset(c2)
    ensures TotalLines(Successes(c1)) == TotalLines(Successes(c2))
    ensures TotalChars(Successes(c1)) == TotalChars(Successes(c2))
    ensures multiset(Successes(c1)) == multiset(Successes(c2))
    ensures multiset(Failures(c1)) == multiset(Failures(c2))
  {
    SettlePermutation(c1, c2);
    TotalsPermutation(Successes(c1), Successes(c2));
  }

  /** One more completion adds its own file to exactly one of the two record lists. */
  lemma SettleFilesStep(succ: seq<SuccessRecord>, fail: seq<FailRecord>, c: Completion)
    ensures |SuccessOf(c)| + |FailureOf(c)| == 1
    ensures multiset(SuccessFiles(succ + SuccessOf(c))) + multiset(FailFiles(fail + FailureOf(c))) ==
      multiset(SuccessFiles(succ)) + multiset(FailFiles(fail)) + multiset{c.filename}
  {
    match c.read
    case Ok(code) =>
      assert (succ + SuccessOf(c))[..|succ|] == succ;
      assert fail + FailureOf(c) == fail;
    case Err(msg) =>
      assert (fail + FailureOf(c))[..|fail|] == fail;
      assert succ + SuccessOf(c) == succ;
  }

  /** Every completion gives exactly one record, a success or a failure, for its own file. */
  lemma {:induction false} SettleFiles(completions: seq<Completion>)
    ensures |Successes(completions)| + |Failures(completions)| == |completions|
    ensures multiset(SuccessFiles(Successes(completions))) + multiset(FailFiles(Failures(completions))) ==
      multiset(CompletionFiles(completions))
  {
    if completions != [] {
      var init, c := completions[..|completions| - 1], completions[|completions| - 1];
      SettleFiles(init);
      assert CompletionFiles(completions) == CompletionFiles(init) + [c.filename];
      SettleFilesStep(Successes(init), Failures(init), c);
    }
  }

  /**
   * A whole scan: when every pending read of the walk completes once, in
   * any order, the success, failure and ignore lists together hold every
   * non-directory entry of the tree exactly once.
   */
  lemma ScanPartition(pwd: string, directory: seq<Entry>, types: set<string>, completions: seq<Completion>)
    requires multiset(CompletionFiles(completions)) == multiset(InScope(Files(pwd, directory), types))
    ensures multiset(SuccessFiles(Successes(completions))) + multiset(FailFiles(Failures(completions))) +
      multiset(OutOfScope(Files(pwd, directory), types)) == multiset(Files(pwd, directory))
  {
    SettleFiles(completions);
    Partition(Files(pwd, directory), types);
  }

  /** The tree of the example scan: two source files, an image, and a sub-directory. */
  function ExampleTree(): seq<Entry>
  {
    [File("main.go"), File("image.png"), Dir("lib", [File("util.go")])]
  }

  /** The paths of the example tree under `root`, in listing order. */
  function ExamplePaths(root: string): seq<string>
  {
    [Join(root, "main.go"), Join(root, "image.png"), Join(Join(root, "lib"), "util.go")]
  }

  lemma ExampleFiles(root: string)
    ensures Files(root, ExampleTree()) == ExamplePaths(root)
  {
    var tree := ExampleTree();
    assert Files(root, tree[..1]) == [Join(root, "main.go")] by {
      assert tree[..1][..0] == [];
    }
    assert Files(root, tree[..2]) == [Join(root, "main.go"), Join(root, "image.png")] by {
      assert tree[..2][..1] == tree[..1];
    }
    assert EntryFiles(root, tree[2]) == [Join(Join(root, "lib"), "util.go")] by {
      assert [File("util.go")][..0] == [];
    }
    assert tree[..|tree| - 1] == tree[..2];
  }

  /** Three files of which the middle one is out of scope. */
  lemma {:induction false} ClassifyThree(a: string, b: string, c: string, types: set<string>)
    requires CheckType(a, types) && !CheckType(b, types) && CheckType(c, types)
    ensures InScope([a, b, c], types) == [a, c]
    ensures OutOfScope([a, b, c], types) == [b]
  {
    InScopeSingle(a, types);
    InScopeSingle(b, types);
    InScopeSingle(c, types);
    InScopeAppend([a], [b], types);
    InScopeAppend([a, b], [c], types);
    assert [a] + [b] == [a, b] && [a, b] + [c] == [a, b, c];
  }

  lemma ExampleClassify(root: string, types: set<string>)
    requires types == set t | t in DefaultTypeList
    ensures var paths := ExamplePaths(root);
      InScope(paths, types) == [paths[0], paths[2]] && OutOfScope(paths, types) == [paths[1]]
  {
    var paths := ExamplePaths(root);
    assert "go" in types && "png" !in types by {
      assert DefaultTypeList[13] == "go";
    }
    KeyAfterLastDot(paths[0], root + "/main", "go", types);
    KeyAfterLastDot(paths[1], root + "/image", "png", types);
    KeyAfterLastDot(paths[2], root + "/lib/util", "go", types);
    ClassifyThree(paths[0], paths[1], paths[2], types);
  }

  /** The example's two reads: "a\nb\nc" and "x". */
  function ExampleCompletions(root: string): seq<Completion>
  {
    var paths := ExamplePaths(root);
    [Completion(paths[0], Ok("a\nb\nc")), Completion(paths[2], Ok("x"))]
  }

  /** Two records total their own counts. */
  lemma TotalsOfTwo(r1: SuccessRecord, r2: SuccessRecord)
    ensures TotalLines([r1, r2]) == r1.lineNum + r2.lineNum
    ensures TotalChars([r1, r2]) == r1.charNum + r2.charNum
  {
    TotalsSnoc([], r1);
    TotalsSnoc([r1], r2);
    assert [] + [r1] == [r1] && [r1] + [r2] == [r1, r2];
  }

  lemma ExampleSettled(root: string)
    ensures var c := ExampleCompletions(root);
      Successes(c) == [RecordOf(c[0].filename, "a\nb\nc"), RecordOf(c[1].filename, "x")] &&
      CompletionFiles(c) == [c[0].filename, c[1].filename]
  {
    var c := ExampleCompletions(root);
    assert c[..1][..0] == [] && c[..|c| - 1] == c[..1];
    assert Successes(c[..1]) == [RecordOf(c[0].filename, "a\nb\nc")];
    assert CompletionFiles(c[..1]) == [c[0].filename];
  }

  /** The example's contents: "a\nb\nc" has 5 characters and 2 line breaks, "x" has 1 and none. */
  lemma ExampleCounts(f1: string, f2: string)
    ensures var r1, r2 := RecordOf(f1, "a\nb\nc"), RecordOf(f2, "x");
      r1.lineNum == 3 && r1.charNum == 5 && r2.lineNum == 1 && r2.charNum == 1
  {
    assert multiset("a\nb\nc") == multiset{'a', '\n', 'b', '\n', 'c'};
    assert multiset("x") == multiset{'x'};
  }

  lemma ExampleTotals(root: string)
    ensures var c := ExampleCompletions(root);
      var done := Successes(c);
      CompletionFiles(c) == [c[0].filename, c[1].filename] &&
      |done| == 2 && TotalLines(done) == 4 && TotalChars(done) == 6
  {
    var c := ExampleCompletions(root);
    ExampleSettled(root);
    ExampleCounts(c[0].filename, c[1].filename);
    TotalsOfTwo(RecordOf(c[0].filename, "a\nb\nc"), RecordOf(c[1].filename, "x"));
  }

  /**
   * A small scan with the default types: under any root, `main.go`
   * ("a\nb\nc") and `lib/util.go` ("x") are read and `image.png` is
   * ignored, so two success records total 4 lines and 6 characters.
   */
  lemma ExampleScan(root: string)
    ensures var types := set t | t in DefaultTypeList;
      var paths := ExamplePaths(root);
      Files(root, ExampleTree()) == paths &&
      InScope(paths, types) == [paths[0], paths[2]] &&
      OutOfScope(paths, types) == [paths[1]] &&
      CompletionFiles(ExampleCompletions(root)) == InScope(paths, types) &&
      var done := Successes(ExampleCompletions(root));
      |done| == 2 && TotalLines(done) == 4 && TotalChars(done) == 6
  {
    ExampleFiles(root);
    ExampleClassify(root, set t | t in DefaultTypeList);
    ExampleTotals(root);
  }
}
