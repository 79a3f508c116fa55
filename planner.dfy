/** The planner of src/planner.rs: expands a problem's parameter sweep into
    one run plan per combination of values, substituting each combination
    into the run-name template and into the phase templates. */
module Planner {
  import opened Config
  import opened Text

  // ----- substitution maps -----

  /** A substitution map (a `HashMap<String, String>` in the source), as its
      entries in iteration order. A new key goes to the end; inserting an
      existing key replaces its value where it stands. */
  type Subs = seq<(string, string)>

  function Lookup(m: Subs, k: string): Option<string> {
    if |m| == 0 then None
    else if m[0].0 == k then Some(m[0].1)
    else Lookup(m[1..], k)
  }

  function Insert(m: Subs, k: string, v: string): Subs
    decreases |m|
  {
    if |m| == 0 then [(k, v)]
    else if m[0].0 == k then [(k, v)] + m[1..]
    else [m[0]] + Insert(m[1..], k, v)
  }

  /** After an insert the key looks up its new value; other keys are as
      they were. */
  lemma {:induction false} InsertLookup(m: Subs, k: string, v: string)
    ensures Lookup(Insert(m, k, v), k) == Some(v)
    ensures forall k' :: k' != k ==> Lookup(Insert(m, k, v), k') == Lookup(m, k')
    decreases |m|
  {
    if |m| > 0 && m[0].0 != k {
      InsertLookup(m[1..], k, v);
    }
  }

  /** Inserting adds the new entry and keeps or drops old ones, nothing else. */
  lemma {:induction false} InsertEntries(m: Subs, k: string, v: string)
    ensures forall e :: e in Insert(m, k, v) ==> e in m || e == (k, v)
    decreases |m|
  {
    if |m| > 0 && m[0].0 != k {
      InsertEntries(m[1..], k, v);
    }
  }

  /** A key with no entry is not bound. */
  lemma {:induction false} LookupAbsent(m: Subs, k: string)
    requires forall i :: 0 <= i < |m| ==> m[i].0 != k
    ensures Lookup(m, k) == None
    decreases |m|
  {
    if |m| > 0 {
      LookupAbsent(m[1..], k);
    }
  }

  // ----- token substitution (`replace_tokens`) -----

  /** What `replace_tokens` computes: one whole-string replace-all per map
      entry, in iteration order, each pass working on the previous pass's
      output. */
  function SubstituteAll(s: string, m: Subs): string
    decreases |m|
  {
    if |m| == 0 then s
    else ReplaceAll(SubstituteAll(s, m[..|m| - 1]), Token(m[|m| - 1].0), m[|m| - 1].1)
  }

  method ReplaceTokens(input: string, m: Subs) returns (result: string)
    ensures result == SubstituteAll(input, m)
  {
    result := input;
    var i := 0;
    while i < |m|
      invariant 0 <= i <= |m|
      invariant result == SubstituteAll(input, m[..i])
    {
      var (k, v) := m[i];
      var token := Token(k);
      assert m[..i + 1][..i] == m[..i];
      result := ReplaceAll(result, token, v);
      i := i + 1;
    }
    assert m[..|m|] == m;
  }

  /** A template in which no key of the map occurs as a `{key}` token comes
      back unchanged; in particular an empty map changes nothing. */
  lemma {:induction false} SubstituteWithoutTokens(s: string, m: Subs)
    requires forall i :: 0 <= i < |m| ==> !Occurs(Token(m[i].0), s)
    ensures SubstituteAll(s, m) == s
    decreases |m|
  {
    if |m| > 0 {
      var init := m[..|m| - 1];
      assert forall i :: 0 <= i < |init| ==> init[i] == m[i];
      SubstituteWithoutTokens(s, init);
      ReplaceAllAbsent(s, Token(m[|m| - 1].0), m[|m| - 1].1);
    }
  }

  /** With a single entry `k -> v`, the template is cut at the left-most,
      non-overlapping occurrences of `{k}`; the pieces in between (which
      hold no `{k}`, but may hold any other `{x}`) are kept as they are and
      joined with `v`. */
  lemma SingleEntrySubstitution(s: string, k: string, v: string)
    ensures var parts := Split(s, Token(k));
      && SubstituteAll(s, [(k, v)]) == Join(parts, v)
      && Join(parts, Token(k)) == s
      && (forall i :: 0 <= i < |parts| ==> !Occurs(Token(k), parts[i]))
      && (forall i, j :: 0 <= i < |parts| - 1 && 0 <= j < |parts[i]| ==>
            !OccursAt(parts[i] + Token(k), Token(k), j))
  {
    assert [(k, v)][..0] == [];
    ReplaceAllIsSplitJoin(s, Token(k), v);
    SplitJoinRoundTrip(s, Token(k));
    SplitPartsFree(s, Token(k));
    SplitLeftmost(s, Token(k));
  }

  /** Sequential replacement re-expands substituted text: the result depends
      on the order of the map's entries. */
  lemma SubstitutionIsOrderDependent()
    ensures SubstituteAll("{a}", [("a", "{b}"), ("b", "x")]) == "x"
    ensures SubstituteAll("{a}", [("b", "x"), ("a", "{b}")]) == "{b}"
  {
    var m1: Subs := [("a", "{b}"), ("b", "x")];
    assert m1[..1] == [("a", "{b}")];
    assert ReplaceAll("{a}", "{a}", "{b}") == "{b}";
    assert ReplaceAll("{b}", "{b}", "x") == "x";
    var m2: Subs := [("b", "x"), ("a", "{b}")];
    assert m2[..1] == [("b", "x")];
    assert ReplaceAll("{a}", "{b}", "x") == "{a}";
  }

  // ----- parameter values (`value_to_string`) -----

  /** The text of a value: a string as it is, an integer in canonical
      decimal (a sign exactly when negative, no leading zero) that reads
      back as the integer, a float or anything else as its carried text. */
  function ValueToString(v: Value): (r: string)
    ensures v.VString? ==> r == v.s
    ensures v.VInteger? ==> ParseDecimal(r) == Some(v.i) && CanonicalDecimal(r) && (r[0] == '-' <==> v.i < 0)
    ensures v.VFloat? ==> r == v.rendered
    ensures v.VOther? ==> r == v.rendered
  {
    match v
    case VFloat(text) => text
    case VInteger(i) => DecimalTextRoundTrip(i); DecimalTextCanonical(i); DecimalText(i)
    case VString(s) => s
    case VOther(text) => text
  }

  // ----- the parameter sweep -----

  function ParameterKeys(params: seq<(string, seq<Value>)>): (keys: seq<string>)
    ensures |keys| == |params|
  {
    seq(|params|, i requires 0 <= i < |params| => params[i].0)
  }

  function Render(vals: seq<Value>): (texts: seq<string>)
    ensures |texts| == |vals|
  {
    seq(|vals|, i requires 0 <= i < |vals| => ValueToString(vals[i]))
  }

  function ParameterValues(params: seq<(string, seq<Value>)>): (values: seq<seq<string>>)
    ensures |values| == |params|
  {
    seq(|params|, i requires 0 <= i < |params| => Render(params[i].1))
  }

  function Prepend(x: string, cs: seq<seq<string>>): (r: seq<seq<string>>)
    ensures |r| == |cs| && forall j :: 0 <= j < |cs| ==> r[j] == [x] + cs[j]
  {
    seq(|cs|, j requires 0 <= j < |cs| => [x] + cs[j])
  }

  /** For each `x` of `xs` in turn, every row of `cs` with `x` in front. */
  function Blocks(xs: seq<string>, cs: seq<seq<string>>): seq<seq<string>> {
    if |xs| == 0 then [] else Prepend(xs[0], cs) + Blocks(xs[1..], cs)
  }

  /** The cartesian product of the value lists, first list varying slowest
      and last list fastest. */
  function Product(lists: seq<seq<string>>): seq<seq<string>> {
    if |lists| == 0 then [[]] else Blocks(lists[0], Product(lists[1..]))
  }

  /** The product of the lists' lengths. */
  function CountCombinations(lists: seq<seq<string>>): nat {
    if |lists| == 0 then 1 else |lists[0]| * CountCombinations(lists[1..])
  }

  /** The position of a combination in the product, read as a mixed-radix
      number whose last digit is the least significant. */
  function Rank(lists: seq<seq<string>>, digits: seq<nat>): nat
    requires |digits| == |lists|
  {
    if |lists| == 0 then 0
    else digits[0] * CountCombinations(lists[1..]) + Rank(lists[1..], digits[1..])
  }

  /** The combination that picks `lists[i][digits[i]]` from every list. */
  function Pick(lists: seq<seq<string>>, digits: seq<nat>): (c: seq<string>)
    requires |digits| == |lists|
    requires forall i :: 0 <= i < |lists| ==> digits[i] < |lists[i]|
    ensures |c| == |lists| && forall i :: 0 <= i < |lists| ==> c[i] == lists[i][digits[i]]
  {
    if |lists| == 0 then []
    else [lists[0][digits[0]]] + Pick(lists[1..], digits[1..])
  }

  lemma {:induction false} BlocksLength(xs: seq<string>, cs: seq<seq<string>>)
    ensures |Blocks(xs, cs)| == |xs| * |cs|
  {
    if |xs| > 0 {
      BlocksLength(xs[1..], cs);
      calc {
        |Blocks(xs, cs)|;
        |cs| + (|xs| - 1) * |cs|;
        |xs| * |cs|;
      }
    }
  }

  lemma {:induction false} BlocksAt(xs: seq<string>, cs: seq<seq<string>>, a: nat, b: nat)
    requires a < |xs| && b < |cs|
    ensures a * |cs| + b < |Blocks(xs, cs)|
    ensures Blocks(xs, cs)[a * |cs| + b] == [xs[a]] + cs[b]
  {
    BlocksLength(xs, cs);
    if a > 0 {
      BlocksAt(xs[1..], cs, a - 1, b);
      assert a * |cs| + b == |cs| + ((a - 1) * |cs| + b);
    }
  }

  lemma {:induction false} BlocksMembers(xs: seq<string>, cs: seq<seq<string>>, j: nat)
    requires j < |Blocks(xs, cs)|
    ensures |Blocks(xs, cs)[j]| > 0
    ensures Blocks(xs, cs)[j][0] in xs && Blocks(xs, cs)[j][1..] in cs
  {
    if j >= |cs| {
      BlocksMembers(xs[1..], cs, j - |cs|);
    } else {
      assert Blocks(xs, cs)[j] == [xs[0]] + cs[j];
    }
  }

  /** The sweep has exactly as many combinations as the product of the
      value lists' lengths. */
  lemma {:induction false} ProductLength(lists: seq<seq<string>>)
    ensures |Product(lists)| == CountCombinations(lists)
  {
    if |lists| > 0 {
      ProductLength(lists[1..]);
      BlocksLength(lists[0], Product(lists[1..]));
    }
  }

  /** The count is zero exactly when some value list is empty. */
  lemma {:induction false} CountZeroIffEmptyList(lists: seq<seq<string>>)
    ensures CountCombinations(lists) == 0 <==> exists i :: 0 <= i < |lists| && lists[i] == []
  {
    if |lists| > 0 {
      CountZeroIffEmptyList(lists[1..]);
      var rest := CountCombinations(lists[1..]);
      assert CountCombinations(lists) == 0 <==> |lists[0]| == 0 || rest == 0;
      if rest == 0 {
        var i :| 0 <= i < |lists[1..]| && lists[1..][i] == [];
        assert lists[i + 1] == [];
      }
      if exists i :: 0 <= i < |lists| && lists[i] == [] {
        var i :| 0 <= i < |lists| && lists[i] == [];
        if i > 0 {
          assert lists[1..][i - 1] == [];
        }
      }
    }
  }

  lemma {:induction false} RankBound(lists: seq<seq<string>>, digits: seq<nat>)
    requires |digits| == |lists|
    requires forall i :: 0 <= i < |lists| ==> digits[i] < |lists[i]|
    ensures Rank(lists, digits) < CountCombinations(lists)
  {
    if |lists| > 0 {
      RankBound(lists[1..], digits[1..]);
      var c := CountCombinations(lists[1..]);
      assert (digits[0] + 1) * c <= |lists[0]| * c by {
        assert digits[0] + 1 <= |lists[0]|;
      }
    }
  }

  /** Every choice of one value per list appears in the product, at the
      position its mixed-radix rank gives: keys in order, last key fastest. */
  lemma {:induction false} ProductAt(lists: seq<seq<string>>, digits: seq<nat>)
    requires |digits| == |lists|
    requires forall i :: 0 <= i < |lists| ==> digits[i] < |lists[i]|
    ensures Rank(lists, digits) < |Product(lists)|
    ensures Product(lists)[Rank(lists, digits)] == Pick(lists, digits)
  {
    if |lists| > 0 {
      var rest := Product(lists[1..]);
      var r := Rank(lists[1..], digits[1..]);
      ProductLength(lists[1..]);
      ProductAt(lists[1..], digits[1..]);
      BlocksAt(lists[0], rest, digits[0], r);
      assert Product(lists) == Blocks(lists[0], rest);
      assert Rank(lists, digits) == digits[0] * |rest| + r;
      assert Pick(lists, digits) == [lists[0][digits[0]]] + Pick(lists[1..], digits[1..]);
    }
  }

  /** Every combination of the product picks, for each list, one of its
      values. */
  lemma {:induction false} ProductMembers(lists: seq<seq<string>>, j: nat)
    requires j < |Product(lists)|
    ensures |Product(lists)[j]| == |lists|
    ensures forall i :: 0 <= i < |lists| ==> Product(lists)[j][i] in lists[i]
  {
    if |lists| > 0 {
      var rest := Product(lists[1..]);
      BlocksMembers(lists[0], rest, j);
      var c := Product(lists)[j];
      var k :| 0 <= k < |rest| && rest[k] == c[1..];
      ProductMembers(lists[1..], k);
      forall i | 0 <= i < |lists| ensures c[i] in lists[i] {
        if i > 0 {
          assert c[i] == c[1..][i - 1];
        }
      }
    }
  }

  // ----- the substitution map of one combination -----

  function BindPairs(keys: seq<string>, combo: seq<string>, n: nat): Subs
    requires n <= |keys| && n <= |combo|
  {
    if n == 0 then [] else Insert(BindPairs(keys, combo, n - 1), keys[n - 1], combo[n - 1])
  }

  /** Each parameter key bound to the combination's value (the two lists
      zipped), then `project_root` bound to the target's root. */
  function CombinationSubs(keys: seq<string>, combo: seq<string>, root: string): Subs {
    var n := if |keys| <= |combo| then |keys| else |combo|;
    Insert(BindPairs(keys, combo, n), "project_root", root)
  }

  /** Keys of a hash map are pairwise distinct. */
  predicate Distinct(keys: seq<string>) {
    forall i, j :: 0 <= i < j < |keys| ==> keys[i] != keys[j]
  }

  lemma {:induction false} BindPairsBinds(keys: seq<string>, combo: seq<string>, n: nat)
    requires n <= |keys| && n <= |combo| && Distinct(keys)
    ensures forall i :: 0 <= i < n ==> Lookup(BindPairs(keys, combo, n), keys[i]) == Some(combo[i])
    ensures forall e :: e in BindPairs(keys, combo, n) ==> e.0 in keys[..n]
  {
    if n > 0 {
      BindPairsBinds(keys, combo, n - 1);
      InsertLookup(BindPairs(keys, combo, n - 1), keys[n - 1], combo[n - 1]);
      var m := BindPairs(keys, combo, n);
      forall i | 0 <= i < n ensures Lookup(m, keys[i]) == Some(combo[i]) {
        if i < n - 1 {
          assert keys[i] != keys[n - 1];
        }
      }
      InsertEntries(BindPairs(keys, combo, n - 1), keys[n - 1], combo[n - 1]);
      forall e | e in m ensures e.0 in keys[..n] {
        if e != (keys[n - 1], combo[n - 1]) {
          assert e in BindPairs(keys, combo, n - 1);
          assert e.0 in keys[..n - 1];
        }
      }
    }
  }

  /** The map of a combination binds every parameter key to that
      combination's value, except that `project_root`, inserted last, is
      always the target's root; it binds no other key. */
  lemma CombinationSubsBinds(keys: seq<string>, combo: seq<string>, root: string)
    requires Distinct(keys) && |combo| == |keys|
    ensures var m := CombinationSubs(keys, combo, root);
      && Lookup(m, "project_root") == Some(root)
      && (forall i :: 0 <= i < |keys| && keys[i] != "project_root" ==> Lookup(m, keys[i]) == Some(combo[i]))
      && (forall e :: e in m ==> e.0 in keys || e.0 == "project_root")
  {
    BindPairsBinds(keys, combo, |keys|);
    InsertEntries(BindPairs(keys, combo, |keys|), "project_root", root);
    InsertLookup(BindPairs(keys, combo, |keys|), "project_root", root);
    assert keys[..|keys|] == keys;
  }

  // ----- plans -----

  datatype ConcretePhase = ConcretePhase(
    program: string,
    args: seq<string>,
    cwd: string,
    env: map<string, string>)

  datatype RunPlan = RunPlan(
    name: string,
    runRoot: string,
    build: Option<ConcretePhase>,
    run: ConcretePhase,
    analyze: Option<ConcretePhase>)

  /** The fixed output layout of one run. */
  function RunRoot(root: string, problemName: string, targetName: string, runName: string): string {
    root + "/wrestler_outputs/problems/" + problemName + "/runs/" + targetName + "/" + runName
  }

  /** Two runs of the same problem on the same target share a run root
      exactly when their names are equal. */
  lemma RunRootInjective(root: string, problemName: string, targetName: string, n1: string, n2: string)
    ensures RunRoot(root, problemName, targetName, n1) == RunRoot(root, problemName, targetName, n2) <==> n1 == n2
  {
    var prefix := root + "/wrestler_outputs/problems/" + problemName + "/runs/" + targetName + "/";
    assert RunRoot(root, problemName, targetName, n1) == prefix + n1;
    assert RunRoot(root, problemName, targetName, n2) == prefix + n2;
    if prefix + n1 == prefix + n2 {
      assert n1 == (prefix + n1)[|prefix|..];
      assert n2 == (prefix + n2)[|prefix|..];
    }
  }

  function BuildConcretePhase(phase: Phase, subs: Subs, defaultCwd: string): ConcretePhase {
    ConcretePhase(
      SubstituteAll(phase.program, subs),
      seq(|phase.args|, i requires 0 <= i < |phase.args| => SubstituteAll(phase.args[i], subs)),
      match phase.cwd
      case Some(c) => SubstituteAll(c, subs)
      case None => defaultCwd,
      phase.env.GetOr(map[]))
  }

  function BuildOptional(phase: Option<Phase>, subs: Subs, defaultCwd: string): Option<ConcretePhase> {
    match phase
    case Some(p) => Some(BuildConcretePhase(p, subs, defaultCwd))
    case None => None
  }

  /** The plan of one combination, as the body of the loop in `plan_problem`
      builds it. */
  function PlanFor(problemName: string, problem: Problem, targetName: string, target: Target, combo: seq<string>): RunPlan {
    var subs := CombinationSubs(ParameterKeys(problem.parameters), combo, target.root);
    var name := SubstituteAll(problem.runName, subs);
    var runRoot := RunRoot(target.root, problemName, targetName, name);
    var phaseSubs := Insert(subs, "run_dir", runRoot);
    RunPlan(
      name,
      runRoot,
      BuildOptional(problem.phases.build, phaseSubs, target.root),
      BuildConcretePhase(problem.phases.run, phaseSubs, runRoot + "/run"),
      BuildOptional(problem.phases.analyze, phaseSubs, runRoot + "/analysis"))
  }

  function Combinations(problem: Problem): seq<seq<string>> {
    Product(ParameterValues(problem.parameters))
  }

  /** `PlanFor` unfolded, given the map and the name the loop body of
      `plan_problem` has computed. */
  lemma PlanForUnfolded(problemName: string, problem: Problem, targetName: string, target: Target,
                        combo: seq<string>, runName: string, phaseSubs: Subs)
    requires runName == SubstituteAll(problem.runName, CombinationSubs(ParameterKeys(problem.parameters), combo, target.root))
    requires phaseSubs == Insert(CombinationSubs(ParameterKeys(problem.parameters), combo, target.root),
                                 "run_dir", RunRoot(target.root, problemName, targetName, runName))
    ensures var runRoot := RunRoot(target.root, problemName, targetName, runName);
      PlanFor(problemName, problem, targetName, target, combo) ==
      RunPlan(runName, runRoot,
              BuildOptional(problem.phases.build, phaseSubs, target.root),
              BuildConcretePhase(problem.phases.run, phaseSubs, runRoot + "/run"),
              BuildOptional(problem.phases.analyze, phaseSubs, runRoot + "/analysis"))
  {
  }

  /** The plans of the whole sweep: one per combination, in the product's
      order. */
  function Plans(problemName: string, problem: Problem, targetName: string, target: Target): (plans: seq<RunPlan>)
    ensures |plans| == |Combinations(problem)|
  {
    var combos := Combinations(problem);
    seq(|combos|, i requires 0 <= i < |combos| => PlanFor(problemName, problem, targetName, target, combos[i]))
  }

  /** A concrete phase is its template resolved against a map: program and
      every argument substituted, one argument per template argument, the
      template's working directory substituted or else the default, and the
      environment copied as declared (empty when absent), never substituted. */
  predicate Resolved(c: ConcretePhase, p: Phase, subs: Subs, defaultCwd: string) {
    && c.program == SubstituteAll(p.program, subs)
    && |c.args| == |p.args|
    && (forall i :: 0 <= i < |p.args| ==> c.args[i] == SubstituteAll(p.args[i], subs))
    && (p.cwd.None? ==> c.cwd == defaultCwd)
    && (p.cwd.Some? ==> c.cwd == SubstituteAll(p.cwd.value, subs))
    && (p.env.None? ==> c.env == map[])
    && (p.env.Some? ==> c.env == p.env.value)
  }

  lemma BuildConcretePhaseResolves(p: Phase, subs: Subs, defaultCwd: string)
    ensures Resolved(BuildConcretePhase(p, subs, defaultCwd), p, subs, defaultCwd)
  {
  }

  /** The name and run root of one plan: the name is the run-name template
      resolved against the combination's map, the run root is the fixed
      layout around that name, and the map the phases are resolved against
      binds `run_dir` to the run root and `project_root` to the target's
      root. */
  lemma PlanNaming(problemName: string, problem: Problem, targetName: string, target: Target, combo: seq<string>)
    ensures var plan := PlanFor(problemName, problem, targetName, target, combo);
      var nameSubs := CombinationSubs(ParameterKeys(problem.parameters), combo, target.root);
      var subs := Insert(nameSubs, "run_dir", plan.runRoot);
      && plan.name == SubstituteAll(problem.runName, nameSubs)
      && plan.runRoot == RunRoot(target.root, problemName, targetName, plan.name)
      && Lookup(subs, "run_dir") == Some(plan.runRoot)
      && Lookup(subs, "project_root") == Some(target.root)
  {
    var keys := ParameterKeys(problem.parameters);
    var nameSubs := CombinationSubs(keys, combo, target.root);
    var name := SubstituteAll(problem.runName, nameSubs);
    var runRoot := RunRoot(target.root, problemName, targetName, name);
    var subs := Insert(nameSubs, "run_dir", runRoot);
    PlanForUnfolded(problemName, problem, targetName, target, combo, name, subs);
    PhaseSubsBinds(keys, combo, target.root, runRoot);
  }

  /** The map the phases are resolved against binds `run_dir` to the run
      root and `project_root` to the target's root. */
  lemma PhaseSubsBinds(keys: seq<string>, combo: seq<string>, root: string, runRoot: string)
    ensures var subs := Insert(CombinationSubs(keys, combo, root), "run_dir", runRoot);
      Lookup(subs, "run_dir") == Some(runRoot) && Lookup(subs, "project_root") == Some(root)
  {
    var n := if |keys| <= |combo| then |keys| else |combo|;
    InsertLookup(BindPairs(keys, combo, n), "project_root", root);
    InsertLookup(CombinationSubs(keys, combo, root), "run_dir", runRoot);
    assert "project_root" != "run_dir" by {
      assert "project_root"[0] != "run_dir"[0];
    }
  }

  /** The phases of one plan: build and analyze are present exactly when
      declared, and every phase is its template resolved against the map
      extended with `run_dir`, with working directories defaulting to the
      target's root, the run root's `run` and the run root's `analysis`. */
  lemma PlanPhases(problemName: string, problem: Problem, targetName: string, target: Target, combo: seq<string>)
    ensures var plan := PlanFor(problemName, problem, targetName, target, combo);
      var subs := Insert(CombinationSubs(ParameterKeys(problem.parameters), combo, target.root), "run_dir", plan.runRoot);
      && (plan.build.Some? <==> problem.phases.build.Some?)
      && (plan.analyze.Some? <==> problem.phases.analyze.Some?)
      && (plan.build.Some? ==> Resolved(plan.build.value, problem.phases.build.value, subs, target.root))
      && Resolved(plan.run, problem.phases.run, subs, plan.runRoot + "/run")
      && (plan.analyze.Some? ==>
            Resolved(plan.analyze.value, problem.phases.analyze.value, subs, plan.runRoot + "/analysis"))
  {
    var nameSubs := CombinationSubs(ParameterKeys(problem.parameters), combo, target.root);
    var name := SubstituteAll(problem.runName, nameSubs);
    var runRoot := RunRoot(target.root, problemName, targetName, name);
    var subs := Insert(nameSubs, "run_dir", runRoot);
    PlanForUnfolded(problemName, problem, targetName, target, combo, name, subs);
    BuildConcretePhaseResolves(problem.phases.run, subs, runRoot + "/run");
    if problem.phases.build.Some? {
      BuildConcretePhaseResolves(problem.phases.build.value, subs, target.root);
    }
    if problem.phases.analyze.Some? {
      BuildConcretePhaseResolves(problem.phases.analyze.value, subs, runRoot + "/analysis");
    }
  }

  /** The layout of one plan: its name is the run-name template resolved
      against the combination's map; its run root is the fixed layout around
      the name; its phases are resolved against that map extended with
      `run_dir`, in which `run_dir` is the run root and `project_root` the
      target's root; build and analyze are present exactly when declared,
      and their working directories default to the target's root, the run
      root's `run` and the run root's `analysis`. */
  lemma PlanLayout(problemName: string, problem: Problem, targetName: string, target: Target, combo: seq<string>)
    ensures var plan := PlanFor(problemName, problem, targetName, target, combo);
      var nameSubs := CombinationSubs(ParameterKeys(problem.parameters), combo, target.root);
      var subs := Insert(nameSubs, "run_dir", plan.runRoot);
      && plan.name == SubstituteAll(problem.runName, nameSubs)
      && plan.runRoot == RunRoot(target.root, problemName, targetName, plan.name)
      && Lookup(subs, "run_dir") == Some(plan.runRoot)
      && Lookup(subs, "project_root") == Some(target.root)
      && (plan.build.Some? <==> problem.phases.build.Some?)
      && (plan.analyze.Some? <==> problem.phases.analyze.Some?)
      && (plan.build.Some? ==> Resolved(plan.build.value, problem.phases.build.value, subs, target.root))
      && Resolved(plan.run, problem.phases.run, subs, plan.runRoot + "/run")
      && (plan.analyze.Some? ==>
            Resolved(plan.analyze.value, problem.phases.analyze.value, subs, plan.runRoot + "/analysis"))
  {
    PlanNaming(problemName, problem, targetName, target, combo);
    PlanPhases(problemName, problem, targetName, target, combo);
  }

  /** The run name is resolved before `run_dir` is added: the plan's name is
      the template resolved against the combination's map alone, and unless
      a parameter is itself called `run_dir` that map has no `run_dir` entry,
      so no pass of the substitution replaces `{run_dir}` in the name. */
  lemma NameMapLacksRunDir(problemName: string, problem: Problem, targetName: string, target: Target, combo: seq<string>)
    requires Distinct(ParameterKeys(problem.parameters)) && |combo| == |problem.parameters|
    requires forall i :: 0 <= i < |problem.parameters| ==> problem.parameters[i].0 != "run_dir"
    ensures var m := CombinationSubs(ParameterKeys(problem.parameters), combo, target.root);
      && PlanFor(problemName, problem, targetName, target, combo).name == SubstituteAll(problem.runName, m)
      && (forall i :: 0 <= i < |m| ==> m[i].0 != "run_dir")
      && Lookup(m, "run_dir") == None
  {
    var keys := ParameterKeys(problem.parameters);
    var m := CombinationSubs(keys, combo, target.root);
    CombinationSubsBinds(keys, combo, target.root);
    forall i | 0 <= i < |m| ensures m[i].0 != "run_dir" {
      assert m[i] in m;
    }
    LookupAbsent(m, "run_dir");
  }

  /** The number of plans is the product of the value lists' lengths, and
      it is zero exactly when some parameter has no values. */
  lemma PlanCount(problemName: string, problem: Problem, targetName: string, target: Target)
    requires |problem.parameters| > 0
    ensures |Plans(problemName, problem, targetName, target)| == CountCombinations(ParameterValues(problem.parameters))
    ensures |Plans(problemName, problem, targetName, target)| == 0 <==>
      exists i :: 0 <= i < |problem.parameters| && problem.parameters[i].1 == []
  {
    var values := ParameterValues(problem.parameters);
    ProductLength(values);
    CountZeroIffEmptyList(values);
    forall i | 0 <= i < |values| ensures values[i] == [] <==> problem.parameters[i].1 == [] {
      assert |values[i]| == |problem.parameters[i].1|;
    }
  }

  /** Plan number `Rank(digits)` (mixed radix, last parameter fastest) is the
      plan of the combination taking value `digits[i]` of parameter `i`, each
      rendered as text. */
  lemma PlanAt(problemName: string, problem: Problem, targetName: string, target: Target, digits: seq<nat>)
    requires |problem.parameters| > 0 && |digits| == |problem.parameters|
    requires forall i :: 0 <= i < |digits| ==> digits[i] < |problem.parameters[i].1|
    ensures var plans := Plans(problemName, problem, targetName, target);
      var r := Rank(ParameterValues(problem.parameters), digits);
      && r < |plans|
      && plans[r] == PlanFor(problemName, problem, targetName, target,
           seq(|digits|, i requires 0 <= i < |digits| => ValueToString(problem.parameters[i].1[digits[i]])))
  {
    var values := ParameterValues(problem.parameters);
    ProductAt(values, digits);
    var combo := seq(|digits|, i requires 0 <= i < |digits| => ValueToString(problem.parameters[i].1[digits[i]]));
    assert Pick(values, digits) == combo;
  }

  /** Two plans of a sweep share a run root exactly when they share a name. */
  lemma PlanRootsFollowNames(problemName: string, problem: Problem, targetName: string, target: Target, i: nat, j: nat)
    requires i < |Plans(problemName, problem, targetName, target)| && j < |Plans(problemName, problem, targetName, target)|
    ensures var plans := Plans(problemName, problem, targetName, target);
      plans[i].runRoot == plans[j].runRoot <==> plans[i].name == plans[j].name
  {
    var plans := Plans(problemName, problem, targetName, target);
    PlanLayout(problemName, problem, targetName, target, Combinations(problem)[i]);
    PlanLayout(problemName, problem, targetName, target, Combinations(problem)[j]);
    RunRootInjective(target.root, problemName, targetName, plans[i].name, plans[j].name);
  }

  /** A run name that mentions neither a parameter nor `project_root` is the
      same for every combination, so every plan of the sweep gets the same
      run root and writes into the same directories. */
  lemma UntokenedNameCollides(problemName: string, problem: Problem, targetName: string, target: Target, i: nat)
    requires Distinct(ParameterKeys(problem.parameters))
    requires forall k :: 0 <= k < |problem.parameters| ==> !Occurs(Token(problem.parameters[k].0), problem.runName)
    requires !Occurs(Token("project_root"), problem.runName)
    requires i < |Plans(problemName, problem, targetName, target)|
    ensures Plans(problemName, problem, targetName, target)[i].name == problem.runName
    ensures Plans(problemName, problem, targetName, target)[i].runRoot
      == RunRoot(target.root, problemName, targetName, problem.runName)
  {
    var keys := ParameterKeys(problem.parameters);
    var combo := Combinations(problem)[i];
    ProductMembers(ParameterValues(problem.parameters), i);
    var m := CombinationSubs(keys, combo, target.root);
    CombinationSubsBinds(keys, combo, target.root);
    forall j | 0 <= j < |m| ensures !Occurs(Token(m[j].0), problem.runName) {
      assert m[j] in m;
      if m[j].0 != "project_root" {
        var k :| 0 <= k < |keys| && keys[k] == m[j].0;
        assert problem.parameters[k].0 == m[j].0;
      }
    }
    SubstituteWithoutTokens(problem.runName, m);
  }

  /** The substitution map of one combination, as the body of `plan_problem`
      builds it: each key bound to its value, then `project_root`. */
  method BindCombination(keys: seq<string>, combo: seq<string>, root: string) returns (subs: Subs)
    ensures subs == CombinationSubs(keys, combo, root)
  {
    var n := if |keys| <= |combo| then |keys| else |combo|;
    subs := [];
    var j := 0;
    while j < n
      invariant 0 <= j <= n
      invariant subs == BindPairs(keys, combo, j)
    {
      subs := Insert(subs, keys[j], combo[j]);
      j := j + 1;
    }
    subs := Insert(subs, "project_root", root);
  }

  /** The plan of one combination: its name, its run root, and its phases
      resolved against the map extended with `run_dir`. */
  method PlanCombination(problemName: string, problem: Problem, targetName: string, target: Target, combo: seq<string>)
    returns (plan: RunPlan)
    ensures plan == PlanFor(problemName, problem, targetName, target, combo)
  {
    var subs := BindCombination(ParameterKeys(problem.parameters), combo, target.root);
    var runName := ReplaceTokens(problem.runName, subs);
    var runRoot := RunRoot(target.root, problemName, targetName, runName);
    subs := Insert(subs, "run_dir", runRoot);
    var build := BuildOptional(problem.phases.build, subs, target.root);
    var run := BuildConcretePhase(problem.phases.run, subs, runRoot + "/run");
    var analyze := BuildOptional(problem.phases.analyze, subs, runRoot + "/analysis");
    PlanForUnfolded(problemName, problem, targetName, target, combo, runName, subs);
    plan := RunPlan(runName, runRoot, build, run, analyze);
  }

  /** Extending the first `c` plans by the plan of combination `c` gives
      the first `c + 1`. */
  lemma PlansSnoc(problemName: string, problem: Problem, targetName: string, target: Target, c: nat)
    requires c < |Combinations(problem)|
    ensures c + 1 <= |Plans(problemName, problem, targetName, target)|
    ensures Plans(problemName, problem, targetName, target)[..c + 1]
      == Plans(problemName, problem, targetName, target)[..c] + [PlanFor(problemName, problem, targetName, target, Combinations(problem)[c])]
  {
    var all := Plans(problemName, problem, targetName, target);
    SliceSnoc(all, c);
  }

  lemma SliceSnoc<T>(xs: seq<T>, c: nat)
    requires c < |xs|
    ensures xs[..c + 1] == xs[..c] + [xs[c]]
  {
  }

  lemma PlansWhole(problemName: string, problem: Problem, targetName: string, target: Target)
    ensures Plans(problemName, problem, targetName, target)[..|Combinations(problem)|] == Plans(problemName, problem, targetName, target)
  {
  }

  /** `plan_problem`. */
  method PlanProblem(problemName: string, problem: Problem, targetName: string, target: Target)
    returns (plans: seq<RunPlan>)
    ensures plans == Plans(problemName, problem, targetName, target)
  {
    var combos := Combinations(problem);
    plans := [];
    var c := 0;
    PlansWhole(problemName, problem, targetName, target);
    while c < |combos|
      invariant 0 <= c <= |combos|
      invariant plans == Plans(problemName, problem, targetName, target)[..c]
    {
      var plan := PlanCombination(problemName, problem, targetName, target, combos[c]);
      PlansSnoc(problemName, problem, targetName, target, c);
      plans := plans + [plan];
      c := c + 1;
    }
  }
}
