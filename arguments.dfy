/**
 * The command-line loop of `main`: flags, the `-t` type list and the
 * positional arguments, followed by the choice of the target path.
 */
module Arguments {
  import opened Seqs

  /** Which lists the report prints; an option never set reads as false. */
  datatype Options = Options(logSuccessList: bool, logFailList: bool, logIgnoreList: bool)

  const NoOptions := Options(false, false, false)

  /** What the loop updates: the options, the type list and the positional arguments. */
  datatype ArgState = ArgState(option: Options, typeList: set<string>, remain: seq<string>)

  predicate IsListFlag(a: string) { a == "-l" || a == "--list" }

  predicate IsTypeFlag(a: string) { a == "-t" || a == "--type" }

  /** An argument the loop treats as an option rather than a positional argument. */
  predicate IsOption(a: string)
  {
    IsListFlag(a) || IsTypeFlag(a) || a == "-sl" || a == "-fl" || a == "-il"
  }

  /**
   * `argv[index][0] == '-'`. For the empty argument `[0]` is undefined,
   * which differs from '-', so "" does not stop a type list.
   */
  predicate StartsWithDash(a: string) { |a| > 0 && a[0] == '-' }

  predicate SetsSuccess(a: string) { IsListFlag(a) || a == "-sl" }
  predicate SetsFail(a: string) { IsListFlag(a) || a == "-fl" }
  predicate SetsIgnore(a: string) { IsListFlag(a) || a == "-il" }

  /** Where the arguments of a type list that starts at `j` end. */
  function TypesEnd(argv: seq<string>, j: nat): (k: nat)
    requires j <= |argv|
    ensures j <= k <= |argv|
    ensures forall m :: j <= m < k ==> !StartsWithDash(argv[m])
    ensures k < |argv| ==> StartsWithDash(argv[k])
    decreases |argv| - j
  {
    if j == |argv| || StartsWithDash(argv[j]) then j else TypesEnd(argv, j + 1)
  }

  /** The effect of one argument other than `-t`/`--type`. */
  function Apply(a: string, st: ArgState): (r: ArgState)
    requires !IsTypeFlag(a)
    ensures r.typeList == st.typeList
  {
    if IsListFlag(a) then st.(option := Options(true, true, true))
    else if a == "-sl" then st.(option := st.option.(logSuccessList := true))
    else if a == "-fl" then st.(option := st.option.(logFailList := true))
    else if a == "-il" then st.(option := st.option.(logIgnoreList := true))
    else st.(remain := st.remain + [a])
  }

  /**
   * The loop of `main` from position `i` on, one iteration per call. A
   * `-t` replaces the type list with the arguments up to the next one that
   * starts with '-', and the loop resumes at that argument.
   */
  function Run(argv: seq<string>, i: nat, st: ArgState): ArgState
    requires i <= |argv|
    decreases |argv| - i
  {
    if i == |argv| then st
    else if IsTypeFlag(argv[i]) then
      var k := TypesEnd(argv, i + 1);
      Run(argv, k, st.(typeList := set m | i + 1 <= m < k :: argv[m]))
    else Run(argv, i + 1, Apply(argv[i], st))
  }

  /**
   * The inner loop of `-t`/`--type`: from `start`, every argument that does
   * not start with '-' joins the new type list; the loop stops before the
   * first one that does, or at the end.
   */
  method CollectTypes(argv: seq<string>, start: nat) returns (typeList: set<string>, index: nat)
    requires start <= |argv|
    ensures index == TypesEnd(argv, start)
    ensures typeList == set m | start <= m < index :: argv[m]
  {
    typeList := {};
    index := start;
    while index < |argv|
      invariant start <= index <= |argv|
      invariant TypesEnd(argv, start) == TypesEnd(argv, index)
      invariant typeList == set m | start <= m < index :: argv[m]
      decreases |argv| - index
    {
      if !StartsWithDash(argv[index]) {
        typeList := typeList + {argv[index]};
        index := index + 1;
      } else {
        break;
      }
    }
  }

  /** The argument loop of `main`. */
  method ParseArgv(argv: seq<string>, init: ArgState) returns (st: ArgState)
    ensures st == Run(argv, 0, init)
  {
    var option, typeList, remain := init.option, init.typeList, init.remain;
    var index := 0;
    while index < |argv|
      invariant index <= |argv|
      invariant Run(argv, index, ArgState(option, typeList, remain)) == Run(argv, 0, init)
      decreases |argv| - index
    {
      if argv[index] == "-l" || argv[index] == "--list" {
        option := option.(logSuccessList := true, logFailList := true, logIgnoreList := true);
        index := index + 1;
      } else if argv[index] == "-t" || argv[index] == "--type" {
        typeList, index := CollectTypes(argv, index + 1);
      } else if argv[index] == "-sl" {
        option := option.(logSuccessList := true);
        index := index + 1;
      } else if argv[index] == "-fl" {
        option := option.(logFailList := true);
        index := index + 1;
      } else if argv[index] == "-il" {
        option := option.(logIgnoreList := true);
        index := index + 1;
      } else {
        remain := remain + [argv[index]];
        index := index + 1;
      }
    }
    st := ArgState(option, typeList, remain);
  }

  /**
   * Each option ends up set exactly when it was set before or some argument
   * sets it: `-l`/`--list` sets all three, `-sl`, `-fl` and `-il` their own.
   * No argument of a type list can be a flag, since none starts with '-'.
   */
  lemma {:induction false} RunOptions(argv: seq<string>, i: nat, st: ArgState)
    requires i <= |argv|
    ensures Run(argv, i, st).option.logSuccessList <==>
      st.option.logSuccessList || exists j :: i <= j < |argv| && SetsSuccess(argv[j])
    ensures Run(argv, i, st).option.logFailList <==>
      st.option.logFailList || exists j :: i <= j < |argv| && SetsFail(argv[j])
    ensures Run(argv, i, st).option.logIgnoreList <==>
      st.option.logIgnoreList || exists j :: i <= j < |argv| && SetsIgnore(argv[j])
    decreases |argv| - i
  {
    if i < |argv| {
      var a := argv[i];
      if IsTypeFlag(a) {
        var k := TypesEnd(argv, i + 1);
        RunOptions(argv, k, st.(typeList := set m | i + 1 <= m < k :: argv[m]));
        assert forall j :: i <= j < k ==> !SetsSuccess(argv[j]) && !SetsFail(argv[j]) && !SetsIgnore(argv[j]);
      } else {
        var st' := Apply(a, st);
        assert Run(argv, i, st) == Run(argv, i + 1, st');
        RunOptions(argv, i + 1, st');
      }
    }
  }

  /** The loop leaves the type list alone when no `-t` or `--type` is given. */
  lemma {:induction false} RunKeepsTypeList(argv: seq<string>, i: nat, st: ArgState)
    requires i <= |argv|
    requires forall j :: i <= j < |argv| ==> !IsTypeFlag(argv[j])
    ensures Run(argv, i, st).typeList == st.typeList
    decreases |argv| - i
  {
    if i < |argv| {
      var a := argv[i];
      var st' := Apply(a, st);
      assert Run(argv, i, st) == Run(argv, i + 1, st');
      RunKeepsTypeList(argv, i + 1, st');
    }
  }

  /**
   * The last `-t` (at `p`) decides the type list: exactly the arguments after
   * it up to, and not including, the first that starts with '-'. A `-t` at the
   * end leaves the list empty.
   */
  lemma {:induction false} RunTypeList(argv: seq<string>, i: nat, st: ArgState, p: nat)
    requires i <= p < |argv| && IsTypeFlag(argv[p])
    requires forall j :: p < j < |argv| ==> !IsTypeFlag(argv[j])
    ensures forall x :: x in Run(argv, i, st).typeList <==>
      exists m :: p < m < |argv| && argv[m] == x && forall q :: p < q <= m ==> !StartsWithDash(argv[q])
    decreases |argv| - i
  {
    var a := argv[i];
    if IsTypeFlag(a) {
      var k := TypesEnd(argv, i + 1);
      var st' := st.(typeList := set m | i + 1 <= m < k :: argv[m]);
      assert Run(argv, i, st) == Run(argv, k, st');
      if i == p {
        RunKeepsTypeList(argv, k, st');
        forall x ensures x in st'.typeList <==>
          exists m :: p < m < |argv| && argv[m] == x && forall q :: p < q <= m ==> !StartsWithDash(argv[q])
        {
          if x !in st'.typeList {
            forall m | p < m < |argv| && argv[m] == x
              ensures exists q :: p < q <= m && StartsWithDash(argv[q])
            {
              assert k <= m && StartsWithDash(argv[k]);
            }
          }
        }
      } else {
        assert !StartsWithDash(argv[p]) ==> p >= k;
        RunTypeList(argv, k, st', p);
      }
    } else {
      var st' := Apply(a, st);
      assert Run(argv, i, st) == Run(argv, i + 1, st');
      RunTypeList(argv, i + 1, st', p);
    }
  }

  /** A `-t` as the last argument leaves the type list empty. */
  lemma TypeFlagLast(argv: seq<string>, st: ArgState)
    requires |argv| > 0 && IsTypeFlag(argv[|argv| - 1])
    ensures Run(argv, 0, st).typeList == {}
  {
    RunTypeList(argv, 0, st, |argv| - 1);
  }

  /**
   * The argument that ends a type list is then handled as a flag of its own:
   * `-t c js -sl src` selects the types "c" and "js", sets only the success
   * list option and leaves "src" as the one positional argument.
   */
  lemma TypeListThenFlag(st: ArgState)
    ensures var r := Run(["-t", "c", "js", "-sl", "src"], 0, st);
      r.typeList == {"c", "js"} && r.option == st.option.(logSuccessList := true) &&
      r.remain == st.remain + ["src"]
  {
    var argv := ["-t", "c", "js", "-sl", "src"];
    assert TypesEnd(argv, 1) == 3;
    var types := set m | 1 <= m < 3 :: argv[m];
    assert types == {"c", "js"} by {
      assert argv[1] in types && argv[2] in types;
    }
  }

  /**
   * Argument `j` belongs to a type list: it does not start with '-' and the
   * argument before it is `-t`/`--type` or belongs to the same list.
   */
  predicate InTypeList(argv: seq<string>, j: nat)
    requires j < |argv|
    decreases j
  {
    0 < j && !StartsWithDash(argv[j]) && (IsTypeFlag(argv[j - 1]) || InTypeList(argv, j - 1))
  }

  /** The positional arguments from `i` on, in order: neither options nor type-list entries. */
  function Positionals(argv: seq<string>, i: nat): seq<string>
    requires i <= |argv|
    decreases |argv| - i
  {
    if i == |argv| then []
    else (if !IsOption(argv[i]) && !InTypeList(argv, i) then [argv[i]] else []) + Positionals(argv, i + 1)
  }

  /** The arguments of a type list contribute no positional argument. */
  lemma {:induction false} SkipTypeList(argv: seq<string>, i: nat, m: nat)
    requires i < |argv| && IsTypeFlag(argv[i])
    requires i < m <= TypesEnd(argv, i + 1)
    ensures forall j :: i < j < m ==> InTypeList(argv, j)
    ensures Positionals(argv, i + 1) == Positionals(argv, m)
    decreases m
  {
    if m > i + 1 {
      SkipTypeList(argv, i, m - 1);
      assert InTypeList(argv, m - 1);
    }
  }

  /** One argument other than `-t`, outside a type list: it adds itself to `remain` unless it is a flag. */
  lemma RunRemainStep(argv: seq<string>, i: nat, st: ArgState)
    requires i < |argv| && !IsTypeFlag(argv[i]) && !InTypeList(argv, i)
    ensures Run(argv, i, st) == Run(argv, i + 1, Apply(argv[i], st))
    ensures Apply(argv[i], st).remain == st.remain + if IsOption(argv[i]) then [] else [argv[i]]
    ensures Positionals(argv, i) == (if IsOption(argv[i]) then [] else [argv[i]]) + Positionals(argv, i + 1)
    ensures i + 1 < |argv| ==> !InTypeList(argv, i + 1)
  {
  }

  /**
   * Started at an argument outside every type list, the loop appends exactly
   * the positional arguments to `remain`, in order.
   */
  lemma {:induction false} RunRemain(argv: seq<string>, i: nat, st: ArgState)
    requires i <= |argv|
    requires i < |argv| ==> !InTypeList(argv, i)
    ensures Run(argv, i, st).remain == st.remain + Positionals(argv, i)
    decreases |argv| - i, 1
  {
    if i < |argv| {
      var a := argv[i];
      if IsTypeFlag(a) {
        RunRemainAtTypeFlag(argv, i, st);
      } else {
        var st' := Apply(a, st);
        var own := if IsOption(a) then [] else [a];
        RunRemainStep(argv, i, st);
        RunRemain(argv, i + 1, st');
        AppendAssoc(st.remain, own, Positionals(argv, i + 1));
      }
    }
  }

  /** The step of `RunRemain` at a `-t`: the type list adds nothing to `remain`. */
  lemma {:induction false} RunRemainAtTypeFlag(argv: seq<string>, i: nat, st: ArgState)
    requires i < |argv| && IsTypeFlag(argv[i])
    ensures Run(argv, i, st).remain == st.remain + Positionals(argv, i)
    decreases |argv| - i, 0
  {
    var k := TypesEnd(argv, i + 1);
    var st' := st.(typeList := set m | i + 1 <= m < k :: argv[m]);
    assert Run(argv, i, st) == Run(argv, k, st');
    assert Positionals(argv, i) == Positionals(argv, i + 1);
    SkipTypeList(argv, i, k);
    assert k < |argv| ==> StartsWithDash(argv[k]) && !InTypeList(argv, k);
    RunRemain(argv, k, st');
  }

  /** The outcome of target selection: the path to scan, or the "Wrong argv" rejection. */
  datatype Target = Target(path: string) | WrongArgv

  /**
   * `remain.length > 1` rejects the run; otherwise the target is
   * `remain[0] || '.'`, so an empty positional argument also gives ".".
   */
  function SelectTarget(remain: seq<string>): (t: Target)
    ensures t == WrongArgv <==> |remain| > 1
    ensures t.Target? ==> t.path != ""
    ensures t.Target? && remain != [] && remain[0] != "" ==> t.path == remain[0]
    ensures t.Target? && (remain == [] || remain[0] == "") ==> t.path == "."
  {
    if |remain| > 1 then WrongArgv
    else if remain == [] || remain[0] == "" then Target(".")
    else Target(remain[0])
  }

  /**
   * The run is rejected exactly when more than one positional argument is
   * given; otherwise the target is that argument, or "." when there is none
   * (or it is the empty string).
   */
  lemma ChooseTarget(argv: seq<string>, init: ArgState)
    requires init.remain == []
    ensures var t := SelectTarget(Run(argv, 0, init).remain);
      var pos := Positionals(argv, 0);
      (t == WrongArgv <==> |pos| > 1) &&
      (|pos| == 1 && pos[0] != "" ==> t == Target(pos[0])) &&
      (pos == [] ==> t == Target("."))
  {
    RunRemain(argv, 0, init);
  }
}
