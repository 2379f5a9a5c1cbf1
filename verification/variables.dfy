/**
 * `get_variable_for_layer`: the variables of one layer, picked out of a
 * variable collection by a substring test on their names.
 */
module VariableIndex {
  import opened Python
  import opened StackAutoencoder

  /** A graph variable: its full name and whether it is trainable. */
  datatype Variable = Variable(name: string, trainable: bool)

  /** `a` is `b` with some elements left out, the rest in their order. */
  ghost predicate Subsequence<T>(a: seq<T>, b: seq<T>)
    decreases |b|
  {
    |a| == 0 || (|b| > 0 && ((a[0] == b[0] && Subsequence(a[1..], b[1..])) || Subsequence(a, b[1..])))
  }

  /** The elements of `s` that satisfy `p`, in order, each as often as in `s`. */
  function Filter<T(!new)>(s: seq<T>, p: T -> bool): (r: seq<T>)
    ensures forall x :: x in r <==> x in s && p(x)
    ensures forall x :: multiset(r)[x] == if p(x) then multiset(s)[x] else 0
    ensures Subsequence(r, s)
    decreases |s|
  {
    if |s| == 0 then []
    else
      var rest := Filter(s[1..], p);
      assert s == [s[0]] + s[1..];
      if p(s[0]) then [s[0]] + rest else rest
  }

  /**
   * One step of filtering left to right: what is kept so far, followed by
   * the filtered suffix from `k`, is unchanged when the element at `k` is
   * moved over to the kept part if it passes.
   */
  lemma FilterSuffixStep<T(!new)>(kept: seq<T>, s: seq<T>, k: nat, p: T -> bool)
    requires k < |s|
    ensures kept + Filter(s[k..], p) == (kept + (if p(s[k]) then [s[k]] else [])) + Filter(s[k + 1..], p)
  {
    assert s[k..][1..] == s[k + 1..];
  }

  /** `tf.trainable_variables(scope)` / `tf.global_variables(scope)`: names starting with the model's scope. */
  function InScope(trainableOnly: bool): Variable -> bool {
    (v: Variable) => ScopeName <= v.name && (v.trainable || !trainableOnly)
  }

  function Collection(all: seq<Variable>, trainableOnly: bool): seq<Variable> {
    Filter(all, InScope(trainableOnly))
  }

  /** The collection of the model's variables: in scope and, when asked for, trainable, in graph order. */
  lemma CollectionMembers(all: seq<Variable>, trainableOnly: bool)
    ensures forall v :: v in Collection(all, trainableOnly) <==>
              v in all && ScopeName <= v.name && (v.trainable || !trainableOnly)
    ensures Subsequence(Collection(all, trainableOnly), all)
  {
  }

  /** `'encoder/hidden_%d' % index` and its decoder twin. */
  function LayerPattern(role: string, index: int): string {
    Scoped(role, "hidden_" + Decimal(index))
  }

  predicate MatchesLayer(name: string, index: int) {
    Contains(name, LayerPattern("encoder", index)) || Contains(name, LayerPattern("decoder", index))
  }

  function LayerMatcher(index: int): Variable -> bool {
    (v: Variable) => MatchesLayer(v.name, index)
  }

  /** `trainable is True or trainable is None`. */
  predicate WantsTrainable(trainable: Value) {
    trainable == Bool(true) || trainable == NoneValue
  }

  /**
   * `get_variable_for_layer(index, trainable)`: the variables of the chosen
   * collection whose names contain `encoder/hidden_<index>` or
   * `decoder/hidden_<index>`, in collection order.
   */
  method GetVariableForLayer(all: seq<Variable>, index: int, trainable: Value) returns (varList: seq<Variable>)
    ensures varList == Filter(Collection(all, WantsTrainable(trainable)), LayerMatcher(index))
  {
    var allVars := Collection(all, WantsTrainable(trainable));
    varList := [];
    for k := 0 to |allVars|
      invariant varList + Filter(allVars[k..], LayerMatcher(index)) == Filter(allVars, LayerMatcher(index))
    {
      var v := allVars[k];
      var hit := MatchesLayer(v.name, index);
      FilterSuffixStep(varList, allVars, k, LayerMatcher(index));
      if hit {
        varList := varList + [v];
      }
    }
  }

  /** Who is selected: exactly the in-scope, wanted variables whose names match the layer. */
  lemma SelectionMembers(all: seq<Variable>, index: int, trainableOnly: bool)
    ensures forall v :: v in Filter(Collection(all, trainableOnly), LayerMatcher(index)) <==>
              && v in all
              && ScopeName <= v.name
              && (v.trainable || !trainableOnly)
              && MatchesLayer(v.name, index)
  {
  }

  /** The full name TensorFlow gives a variable created under `scope`. */
  function VariableName(scope: string, leaf: string): string {
    Scoped(scope, leaf) + ":0"
  }

  /** The kernel (`weights`) and bias (`biased`) a stage creates in its scope. */
  function StageVariables(scope: string): seq<Variable> {
    [Variable(VariableName(scope, "weights"), true), Variable(VariableName(scope, "biased"), true)]
  }

  /** A stage's scope is the model's scope followed by the pattern of its layer. */
  lemma StageScopeHasPattern(role: string, i: nat)
    ensures StageScope(role, i) == (ScopeName + "/") + LayerPattern(role, i + 1)
  {
    var name := "hidden_" + Decimal(i + 1);
    calc {
      StageScope(role, i);
      ((ScopeName + "/") + role) + "/" + name;
      (ScopeName + "/") + ((role + "/") + name);
      (ScopeName + "/") + LayerPattern(role, i + 1);
    }
  }

  /** The variables created under a scope contain every prefix of the scope's tail in their names. */
  lemma StageVariablesContain(front: string, pattern: string, extra: string, v: Variable)
    requires v in StageVariables(front + (pattern + extra))
    ensures front <= v.name && v.trainable
    ensures Contains(v.name, pattern)
  {
    var scope := front + (pattern + extra);
    var leaf := if v == StageVariables(scope)[0] then "weights" else "biased";
    assert v.name == scope + ("/" + leaf + ":0");
    ContainsPrefixOfMiddle(front, pattern, extra, "/" + leaf + ":0");
  }

  /** A variable of stage `i` lies in the model's scope and matches layer `i + 1`. */
  lemma StageVariablesMatchLayer(role: string, i: nat, v: Variable)
    requires role == "encoder" || role == "decoder"
    requires v in StageVariables(StageScope(role, i))
    ensures ScopeName <= v.name && v.trainable
    ensures MatchesLayer(v.name, i + 1)
  {
    var front, pattern := ScopeName + "/", LayerPattern(role, i + 1);
    StageScopeHasPattern(role, i);
    assert pattern + "" == pattern;
    StageVariablesContain(front, pattern, "", v);
  }

  /**
   * Every variable that encoder or decoder stage `i` creates in its scope
   * (the scope a build gives it, by `BuildProperties.StageScopes`) is
   * returned for layer `i + 1` with the trainable or default flag.
   */
  lemma LayerVariablesSelected(all: seq<Variable>, role: string, i: nat, v: Variable)
    requires role == "encoder" || role == "decoder"
    requires v in all
    requires v in StageVariables(StageScope(role, i))
    ensures v in Filter(Collection(all, true), LayerMatcher(i + 1))
  {
    StageVariablesMatchLayer(role, i, v);
  }

  /**
   * The substring test does not stop at the layer number: the variables of
   * layer `10 * k` (stage `10 * k - 1`) also match layer `k`.
   */
  lemma TenfoldLayerMatches(role: string, k: nat, v: Variable)
    requires role == "encoder" || role == "decoder"
    requires 1 <= k
    requires v in StageVariables(StageScope(role, 10 * k - 1))
    ensures MatchesLayer(v.name, k)
  {
    var front, pattern := ScopeName + "/", LayerPattern(role, k);
    StageScopeHasPattern(role, 10 * k - 1);
    TenfoldPattern(role, k);
    StageVariablesContain(front, pattern, "0", v);
  }

  /** The pattern of layer `10 * k` is the pattern of layer `k` followed by a zero. */
  lemma TenfoldPattern(role: string, k: nat)
    requires 1 <= k
    ensures LayerPattern(role, 10 * k) == LayerPattern(role, k) + "0"
  {
    DigitsAppend(k, 0);
    assert Decimal(10 * k) == Decimal(k) + "0";
  }

  /**
   * In a model with ten or more layers stage 9 opens `hidden_10` (by
   * `BuildProperties.StageScopes`), and asking for layer 1 returns its
   * variables together with layer 10's own answer.
   */
  lemma LayerOneSelectsLayerTen(all: seq<Variable>, role: string, v: Variable)
    requires role == "encoder" || role == "decoder"
    requires v in all
    requires v in StageVariables(StageScope(role, 9))
    ensures v in Filter(Collection(all, true), LayerMatcher(10))
    ensures v in Filter(Collection(all, true), LayerMatcher(1))
  {
    StageVariablesMatchLayer(role, 9, v);
    TenfoldLayerMatches(role, 1, v);
  }
}
