/**
 * The directory tree `analyse_directory` walks, and the order in which it
 * meets the entries that are not directories.
 */
module Walker {
  import opened Seqs
  import opened Classifier

  /**
   * An entry of a directory listing. `fs.lstatSync` decides the kind, so a
   * symbolic link (even one to a directory) is a `File` and is never entered.
   */
  datatype Entry = Dir(name: string, children: seq<Entry>) | File(name: string)

  /** `path.join(pwd, name)`, taken as concatenation with a separator. */
  function Join(pwd: string, name: string): string
  {
    pwd + "/" + name
  }

  /**
   * The joined paths of every non-directory entry below `pwd`, depth first
   * and in listing order: a directory's files come where the directory is listed.
   */
  function Files(pwd: string, entries: seq<Entry>): seq<string>
    decreases entries
  {
    if entries == [] then []
    else Files(pwd, entries[..|entries| - 1]) + EntryFiles(pwd, entries[|entries| - 1])
  }

  /** The paths one listed entry contributes: a directory's whole subtree, or the file itself. */
  function EntryFiles(pwd: string, entry: Entry): seq<string>
    decreases entry
  {
    match entry
    case Dir(name, children) => Files(Join(pwd, name), children)
    case File(name) => [Join(pwd, name)]
  }

  /** The number of non-directory entries of the tree, counted by structure. */
  function FileCount(entries: seq<Entry>): nat
    decreases entries
  {
    if entries == [] then 0
    else
      (match entries[0]
       case Dir(_, children) => FileCount(children)
       case File(_) => 1) + FileCount(entries[1..])
  }

  /** The paths `check_type` accepts, in order: those `analyse_directory` hands to `statistic_code`. */
  function InScope(files: seq<string>, types: set<string>): seq<string>
  {
    if files == [] then []
    else InScope(files[..|files| - 1], types) +
         if CheckType(files[|files| - 1], types) then [files[|files| - 1]] else []
  }

  /** The paths `check_type` rejects, in order: those `analyse_directory` puts on `ignore_list`. */
  function OutOfScope(files: seq<string>, types: set<string>): seq<string>
  {
    if files == [] then []
    else OutOfScope(files[..|files| - 1], types) +
         if CheckType(files[|files| - 1], types) then [] else [files[|files| - 1]]
  }

  lemma {:induction false} InScopeAppend(a: seq<string>, b: seq<string>, types: set<string>)
    ensures InScope(a + b, types) == InScope(a, types) + InScope(b, types)
    ensures OutOfScope(a + b, types) == OutOfScope(a, types) + OutOfScope(b, types)
    decreases |b|
  {
    if b == [] {
      assert a + b == a;
    } else {
      var b', x := b[..|b| - 1], b[|b| - 1];
      assert (a + b)[..|a + b| - 1] == a + b';
      assert (a + b)[|a + b| - 1] == x;
      InScopeAppend(a, b', types);
      AppendAssoc(InScope(a, types), InScope(b', types), if CheckType(x, types) then [x] else []);
      AppendAssoc(OutOfScope(a, types), OutOfScope(b', types), if CheckType(x, types) then [] else [x]);
    }
  }

  /** A single path goes to exactly one side, by `check_type`. */
  lemma InScopeSingle(f: string, types: set<string>)
    ensures InScope([f], types) == if CheckType(f, types) then [f] else []
    ensures OutOfScope([f], types) == if CheckType(f, types) then [] else [f]
  {
    assert [f][..0] == [];
  }

  /**
   * One more entry of a listing: its paths follow those of the entries
   * before it, on both sides of the split.
   */
  lemma WalkStep(pwd: string, entries: seq<Entry>, i: nat, types: set<string>)
    requires i < |entries|
    ensures Files(pwd, entries[..i + 1]) == Files(pwd, entries[..i]) + EntryFiles(pwd, entries[i])
    ensures InScope(Files(pwd, entries[..i + 1]), types) ==
      InScope(Files(pwd, entries[..i]), types) + InScope(EntryFiles(pwd, entries[i]), types)
    ensures OutOfScope(Files(pwd, entries[..i + 1]), types) ==
      OutOfScope(Files(pwd, entries[..i]), types) + OutOfScope(EntryFiles(pwd, entries[i]), types)
  {
    assert entries[..i + 1][..i] == entries[..i];
    InScopeAppend(Files(pwd, entries[..i]), EntryFiles(pwd, entries[i]), types);
  }

  /**
   * Every path lands in exactly one of the two lists: the accepted and the
   * rejected paths together are all of them, nothing lost or repeated, and
   * each list holds only paths of its own kind.
   */
  lemma Partition(files: seq<string>, types: set<string>)
    ensures |InScope(files, types)| + |OutOfScope(files, types)| == |files|
    ensures multiset(InScope(files, types)) + multiset(OutOfScope(files, types)) == multiset(files)
    ensures forall f :: f in InScope(files, types) ==> CheckType(f, types)
    ensures forall f :: f in OutOfScope(files, types) ==> !CheckType(f, types)
  {
    PartitionCounts(files, types);
    PartitionSides(files, types);
  }

  /** The two lists together hold every path exactly once. */
  lemma {:induction false} PartitionCounts(files: seq<string>, types: set<string>)
    ensures multiset(InScope(files, types)) + multiset(OutOfScope(files, types)) == multiset(files)
  {
    if files != [] {
      var init, last := files[..|files| - 1], files[|files| - 1];
      PartitionCounts(init, types);
      MultisetSnoc(files);
      var ins, outs := InScope(init, types), OutOfScope(init, types);
      if CheckType(last, types) {
        assert multiset(InScope(files, types)) == multiset(ins) + multiset{last};
        assert multiset(OutOfScope(files, types)) == multiset(outs);
      } else {
        assert multiset(InScope(files, types)) == multiset(ins);
        assert multiset(OutOfScope(files, types)) == multiset(outs) + multiset{last};
      }
    }
  }

  lemma MultisetSnoc(s: seq<string>)
    requires s != []
    ensures multiset(s) == multiset(s[..|s| - 1]) + multiset{s[|s| - 1]}
  {
    assert s == s[..|s| - 1] + [s[|s| - 1]];
  }

  /** Each list holds only paths of its own kind. */
  lemma {:induction false} PartitionSides(files: seq<string>, types: set<string>)
    ensures forall f :: f in InScope(files, types) ==> CheckType(f, types)
    ensures forall f :: f in OutOfScope(files, types) ==> !CheckType(f, types)
  {
    if files != [] {
      PartitionSides(files[..|files| - 1], types);
    }
  }

  /** A listing split in two walks as the two halves one after the other. */
  lemma {:induction false} FilesAppend(pwd: string, a: seq<Entry>, b: seq<Entry>)
    ensures Files(pwd, a + b) == Files(pwd, a) + Files(pwd, b)
    decreases |b|
  {
    if b == [] {
      assert a + b == a;
    } else {
      var b' := b[..|b| - 1];
      assert (a + b)[..|a + b| - 1] == a + b';
      FilesAppend(pwd, a, b');
    }
  }

  /** The walk meets exactly one path per non-directory entry of the tree. */
  lemma {:induction false} FilesCount(pwd: string, entries: seq<Entry>)
    ensures |Files(pwd, entries)| == FileCount(entries)
    decreases entries
  {
    if entries != [] {
      var rest := entries[1..];
      assert entries == [entries[0]] + rest;
      FilesAppend(pwd, [entries[0]], rest);
      FilesCount(pwd, rest);
      assert [entries[0]][..0] == [];
      assert Files(pwd, [entries[0]]) == EntryFiles(pwd, entries[0]);
      match entries[0]
      case Dir(name, children) => FilesCount(Join(pwd, name), children);
      case File(name) =>
    }
  }
}
