/** The workflow definition language: nodes, edges, and the ids of cloned nodes. */
module WorkflowDef {
  type Id = string
  type Expr = string  // JSON Logic source text; the empty string is a missing expression

  datatype Option<+T> = None | Some(value: T)

  /** An edge selector. `Unset` is the empty string, which means success; `Other` is any text
      that is not one of the five predefined selectors. */
  datatype Selector = Unset | OnSuccess | OnFailed | OnApproved | OnRejected | Always | Other(text: string)

  datatype Edge = Edge(from: Id, to: Id, cond: Selector, branchKey: string)

  datatype Retry = Retry(maxAttempts: int, backoffSeconds: seq<int>)
  datatype AgentSpec = AgentSpec(retry: Option<Retry>)
  datatype LoopSpec = LoopSpec(bodyEntry: Id, condition: Expr, maxIterations: int)
  datatype FanOut = FanOut(itemsExpr: Expr, template: Id)

  /** A node type together with the spec of that type. */
  datatype Kind =
    | Agent(agent: Option<AgentSpec>)
    | HumanApproval(hasSpec: bool)
    | Condition(expr: Expr)
    | Transform(expr: Expr)
    | Trigger(source: Option<string>)
    | ParallelFork(fanOut: Option<FanOut>)
    | Join
    | Loop(loop: Option<LoopSpec>)
    | Subworkflow
    | Unknown(name: string)

  datatype Node = Node(id: Id, kind: Kind)

  datatype WorkflowDef = WorkflowDef(id: string, version: string, nodes: seq<Node>, edges: seq<Edge>)

  ghost function NodeIds(d: WorkflowDef): set<Id> {
    set i | 0 <= i < |d.nodes| :: d.nodes[i].id
  }

  ghost predicate Distinct<T>(s: seq<T>) {
    forall i, j | 0 <= i < j < |s| :: s[i] != s[j]
  }

  function RankOf(rank: map<Id, nat>, id: Id): nat {
    if id in rank then rank[id] else 0
  }

  // ----- Ids of cloned nodes -----

  const DIGITS: string := "0123456789"

  /** The decimal text of a natural number. */
  function Decimal(n: nat): (s: string)
    ensures s != ""
    ensures forall c | c in s :: c != '#'
  {
    if n < 10 then [DIGITS[n]] else Decimal(n / 10) + [DIGITS[n % 10]]
  }

  function CloneId(template: Id, i: nat): Id {
    template + "#" + Decimal(i)
  }

  lemma {:induction false} DecimalInjective(m: nat, n: nat)
    requires Decimal(m) == Decimal(n)
    ensures m == n
  {
    var s, t := Decimal(m), Decimal(n);
    assert DIGITS[m % 10] == s[|s| - 1] == t[|t| - 1] == DIGITS[n % 10];
    assert m % 10 == n % 10;
    if m >= 10 && n >= 10 {
      assert Decimal(m / 10) == s[..|s| - 1] == t[..|t| - 1] == Decimal(n / 10);
      DecimalInjective(m / 10, n / 10);
    }
  }

  /** Clone ids never collide: the template and the index can both be read back. */
  lemma CloneIdInjective(t: Id, i: nat, u: Id, j: nat)
    requires CloneId(t, i) == CloneId(u, j)
    ensures t == u && i == j
  {
    var a, b := Decimal(i), Decimal(j);
    var s := CloneId(t, i);
    assert s == t + "#" + a && s == u + "#" + b;
    assert s[|t|] == '#' && s[|u|] == '#';
    assert forall k | |t| < k < |s| :: s[k] == a[k - |t| - 1] && s[k] in a;
    assert forall k | |u| < k < |s| :: s[k] == b[k - |u| - 1] && s[k] in b;
    assert |t| == |u|;
    assert t == s[..|t|] && u == s[..|u|];
    assert a == s[|t| + 1..] == b;
    DecimalInjective(i, j);
  }

  /** The number a decimal text stands for. */
  function NumberOf(s: string): int {
    if s == "" then 0 else NumberOf(s[..|s| - 1]) * 10 + (s[|s| - 1] as int - '0' as int)
  }

  /** The id of clone `i` is the template, a number sign, and the number `i` in digits without leading zero. */
  lemma {:induction false} CloneIdText(template: Id, i: nat)
    ensures exists text :: CloneId(template, i) == template + "#" + text && NumberOf(text) == i
                           && (forall c | c in text :: '0' <= c <= '9') && (text[..1] == "0" ==> text == "0")
  {
    DecimalText(i);
    assert CloneId(template, i) == template + "#" + Decimal(i);
  }

  lemma {:induction false} DecimalText(n: nat)
    ensures NumberOf(Decimal(n)) == n && (forall c | c in Decimal(n) :: '0' <= c <= '9')
    ensures Decimal(n)[0] == '0' ==> n == 0
  {
    assert forall d | 0 <= d < 10 :: DIGITS[d] as int == '0' as int + d;
    if n >= 10 {
      DecimalText(n / 10);
      assert Decimal(n)[..|Decimal(n)| - 1] == Decimal(n / 10);
    } else {
      assert Decimal(n)[..0] == "";
    }
  }
}
