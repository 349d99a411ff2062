/** A route rule over variables: groups of conditions, joined by "and" within and "or" between. */
module VariableMatch {

  datatype Model = And | Or

  datatype Condition = NoValue | Equals(value: string)

  datatype Pattern = NoPattern | Matches(regex: string)

  datatype Item = Item(name: string, value: Condition, pattern: Pattern, model: Model)

  /** What the request says: the variables, and which strings a regular expression matches. */
  datatype Request = Request(get: string -> string, regex: (string, string) -> bool)

  /** A pattern, where there is one, decides. */
  predicate Holds(v: Item, r: Request) {
    if v.pattern.Matches? then r.regex(v.pattern.regex, r.get(v.name))
    else v.value.Equals? && v.value.value == r.get(v.name)
  }

  /** Items i..j form a group: it begins after an "or" item and ends with one, or with the list. */
  predicate Group(vs: seq<Item>, i: int, j: int) {
    && 0 <= i <= j < |vs|
    && (i == 0 || vs[i - 1].model == Or)
    && (j == |vs| - 1 || vs[j].model == Or)
    && forall k :: i <= k < j ==> vs[k].model == And
  }

  predicate AllHold(vs: seq<Item>, i: int, j: int, r: Request)
    requires 0 <= i <= j <= |vs|
  {
    forall k :: i <= k < j ==> Holds(vs[k], r)
  }

  /** A rule with items matches when some group holds in full; a rule without items always does. */
  ghost predicate Expected(vs: seq<Item>, r: Request) {
    vs == [] || exists i, j :: Group(vs, i, j) && AllHold(vs, i, j + 1, r)
  }

  method Match(vs: seq<Item>, r: Request) returns (result: bool)
    ensures result <==> Expected(vs, r)
  {
    result := true;
    var lastMode := And;
    ghost var start := 0;
    for n := 0 to |vs|
      invariant 0 <= start <= n
      invariant start == 0 || vs[start - 1].model == Or
      invariant lastMode == Or ==> n > 0 && vs[n - 1].model == Or && !result
      invariant lastMode == And ==> (result <==> AllHold(vs, start, n, r)) && forall k :: start <= k < n ==>
                vs[k].model == And
      invariant lastMode == And && n > 0 ==> start < n
      invariant forall i, j :: Group(vs, i, j) && j < n && (j < start || lastMode == Or) ==> !AllHold(vs, i, j + 1, r)
    {
      var v := vs[n];
      var curStepRes := false;
      var actual := r.get(v.name);
      if v.value.Equals? {
        curStepRes := v.value.value == actual;
      }
      if v.pattern.Matches? {
        curStepRes := r.regex(v.pattern.regex, actual);
      }
      if lastMode == And {
        result := result && curStepRes;
      } else {
        result := curStepRes;
        start := n;
      }
      if result {
        if v.model == Or {
          assert Group(vs, start, n) && AllHold(vs, start, n + 1, r);
          return;
        }
      }
      lastMode := v.model;
    }
    if vs != [] && lastMode == And {
      assert Group(vs, start, |vs| - 1);
    }
  }
}
