/** Queue criteria: predicates over a ready task, and the bounded walk that validates them. */
module Criteria {
  import opened Topology
  import Decimals

  // `Validate` walks a predicate with a counter it shares over the whole walk; it accepts exactly the predicates within
  // the limits whose nodes are all well-formed, and looks at no more than 65 nodes of any predicate. A string here
  // holds one character for each byte.

  const MAX_DEPTH := 8
  const MAX_NODES := 64
  const MAX_IN := 256
  const MAX_TEXT := 256

  // ---- comparisons ----

  datatype Attribute = Attribute(field: string, name: string, type_: string)

  /** An argument: text, an integer, decimal text or a flag; Foreign is anything else. */
  datatype Arg = Text(text: string) | Integer(n: int) | Decimal(digits: string) | Flag(flag: bool) | Foreign

  datatype Comparison = Comparison(attribute: Attribute, op: string, args: seq<Arg>)

  /** The least and the most arguments of each operator. */
  const ARITY: map<string, (nat, nat)> := map[
    "EQUAL" := (1, 1), "NOT_EQUAL" := (1, 1), "IN" := (1, MAX_IN), "LESS_THAN" := (1, 1),
      "LESS_THAN_OR_EQUAL" := (1, 1),
    "GREATER_THAN" := (1, 1), "GREATER_THAN_OR_EQUAL" := (1, 1), "BETWEEN" := (2, 2), "LIKE" := (1, 1),
      "IS_NULL" := (0, 0),
    "IS_NOT_NULL" := (0, 0)]

  const ORDERING: set<string> :=
    {"LESS_THAN", "LESS_THAN_OR_EQUAL", "GREATER_THAN", "GREATER_THAN_OR_EQUAL", "BETWEEN"}

  predicate IsLower(c: char) { 'a' <= c <= 'z' }

  predicate IsAttributeName(name: string) {
    && 1 <= |name| <= 63 && IsLower(name[0])
    && forall i :: 0 < i < |name| ==> IsLower(name[i]) || '0' <= name[i] <= '9' || name[i] == '_'
  }

  datatype ArgKind = TextKind | NumberKind | IntegerKind | FlagKind

  predicate FitsAlone(a: Arg) {
    match a
    case Text(text) => |text| <= MAX_TEXT
    case Decimal(digits) => Decimals.CheckDecimal(digits)
    case Integer(_) => true
    case Flag(_) => true
    case Foreign => false
  }

  function KindOf(a: Arg, type_: string): ArgKind
    requires !a.Foreign?
  {
    match a
    case Text(_) => TextKind
    case Integer(_) => if type_ == "INTEGER" then IntegerKind else NumberKind
    case Decimal(_) => NumberKind
    case Flag(_) => FlagKind
  }

  predicate FitsType(a: Arg, type_: string) {
    && FitsAlone(a)
    && (type_ == "TEXT" ==> a.Text?)
    && (type_ == "INTEGER" ==> a.Integer?)
  }

  /** What a comparison must be, in no particular order. */
  ghost predicate WellCompared(c: Comparison) {
    var type_, n := c.attribute.type_, |c.args|;
    && (c.attribute.field == "ATTRIBUTE" ==> IsAttributeName(c.attribute.name))
    && c.op in ARITY && ARITY[c.op].0 <= n <= ARITY[c.op].1
    && (c.attribute.field == "STEP" ==> c.op in {"EQUAL", "NOT_EQUAL", "IN"})
    && (c.op == "LIKE" ==> type_ != "INTEGER")
    && (forall i :: 0 <= i < n ==> FitsType(c.args[i], type_))
    && (type_ == "ANY" ==>
          && (forall i, x :: 0 <= i < x < n ==> KindOf(c.args[i], type_) == KindOf(c.args[x], type_))
          && (c.op == "LIKE" ==> forall i :: 0 <= i < n ==> c.args[i].Text?)
          && (c.op in ORDERING ==> forall i :: 0 <= i < n ==> !c.args[i].Flag?))
  }

  /** The kinds of the first n arguments. */
  ghost function KindsOf(c: Comparison, n: nat): set<ArgKind>
    requires n <= |c.args| && forall i :: 0 <= i < n ==> !c.args[i].Foreign?
  {
    if n == 0 then {} else KindsOf(c, n - 1) + {KindOf(c.args[n - 1], c.attribute.type_)}
  }

  lemma {:induction false} KindsIn(c: Comparison, n: nat)
    requires n <= |c.args| && forall i :: 0 <= i < n ==> !c.args[i].Foreign?
    ensures forall i :: 0 <= i < n ==> KindOf(c.args[i], c.attribute.type_) in KindsOf(c, n)
    ensures forall k :: k in KindsOf(c, n) ==> exists i :: 0 <= i < n && KindOf(c.args[i], c.attribute.type_) == k
  {
    if n > 0 { KindsIn(c, n - 1); }
  }

  lemma OneKind(kinds: set<ArgKind>)
    ensures |kinds| > 1 <==> exists a, b :: a in kinds && b in kinds && a != b
  {
    if a, b :| a in kinds && b in kinds && a != b {
      assert |kinds| == |kinds - {a, b}| + 2;
    }
    if |kinds| > 1 {
      var a :| a in kinds;
      var rest := kinds - {a};
      assert |rest| == |kinds| - 1;
      var b :| b in rest;
      assert b in kinds && a != b;
    }
  }

  method ValidateComparison(c: Comparison) returns (ok: bool)
    ensures ok <==> WellCompared(c)
  {
    hide IsAttributeName, FitsAlone, FitsType, KindsOf;
    var f := c.attribute;
    if f.field == "ATTRIBUTE" && !IsAttributeName(f.name) { return false; }
    if c.op !in ARITY { return false; }
    var bounds, n := ARITY[c.op], |c.args|;
    if n < bounds.0 || n > bounds.1 { return false; }
    if f.field == "STEP" && c.op != "EQUAL" && c.op != "NOT_EQUAL" && c.op != "IN" { return false; }
    if c.op == "LIKE" && f.type_ == "INTEGER" { return false; }
    var kinds := ValidateArgs(c);
    if kinds.None? { return false; }
    if f.type_ == "ANY" { ok := ValidateMix(c, kinds.value); } else { ok := true; }
  }

  /** The arguments one by one, and the kinds among them. */
  method ValidateArgs(c: Comparison) returns (kinds: Option<set<ArgKind>>)
    ensures kinds.Some? <==> forall i :: 0 <= i < |c.args| ==> FitsType(c.args[i], c.attribute.type_)
    ensures kinds.Some? ==>
              (forall i :: 0 <= i < |c.args| ==> !c.args[i].Foreign?) && kinds.value == KindsOf(c, |c.args|)
  {
    hide FitsAlone;
    var seen: set<ArgKind>, type_ := {}, c.attribute.type_;
    for i := 0 to |c.args|
      invariant forall x :: 0 <= x < i ==> FitsType(c.args[x], type_) && !c.args[x].Foreign?
      invariant seen == KindsOf(c, i)
    {
      var a := c.args[i];
      ForeignNeverFits(a);
      if !FitsAlone(a) { return None; }
      var kind := KindOf(a, type_);
      if type_ == "TEXT" && kind != TextKind { return None; }
      if type_ == "INTEGER" && kind != IntegerKind { return None; }
      seen := seen + {kind};
    }
    return Some(seen);
  }

  /** The kinds among the arguments of an attribute of any type. */
  method ValidateMix(c: Comparison, kinds: set<ArgKind>) returns (ok: bool)
    requires c.attribute.type_ == "ANY" && c.op in ARITY && ARITY[c.op].0 <= |c.args| <= ARITY[c.op].1
    requires forall i :: 0 <= i < |c.args| ==> !c.args[i].Foreign?
    requires kinds == KindsOf(c, |c.args|)
    ensures ok <==>
            && (forall i, x :: 0 <= i < x < |c.args| ==> KindOf(c.args[i], "ANY") == KindOf(c.args[x], "ANY"))
            && (c.op == "LIKE" ==> forall i :: 0 <= i < |c.args| ==> c.args[i].Text?)
            && (c.op in ORDERING ==> forall i :: 0 <= i < |c.args| ==> !c.args[i].Flag?)
  {
    KindsIn(c, |c.args|);
    OneKind(kinds);
    if |kinds| > 1 { return false; }
    if c.op == "LIKE" && TextKind !in kinds { return false; }
    if FlagKind in kinds && (c.op in ORDERING || c.op == "LIKE") { return false; }
    OfAnyType(c, kinds);
    return true;
  }

  lemma ForeignNeverFits(a: Arg)
    ensures a.Foreign? ==> !FitsAlone(a)
  {}

  /** What the last checks of an attribute's arguments come to. */
  lemma OfAnyType(c: Comparison, kinds: set<ArgKind>)
    requires c.attribute.type_ == "ANY" && c.op in ARITY && ARITY[c.op].0 <= |c.args| <= ARITY[c.op].1
    requires forall i :: 0 <= i < |c.args| ==> !c.args[i].Foreign?
    requires kinds == KindsOf(c, |c.args|) && |kinds| <= 1
    requires c.op == "LIKE" ==> TextKind in kinds
    requires FlagKind in kinds ==> c.op !in ORDERING
    ensures forall i, x :: 0 <= i < x < |c.args| ==> KindOf(c.args[i], "ANY") == KindOf(c.args[x], "ANY")
    ensures c.op == "LIKE" ==> forall i :: 0 <= i < |c.args| ==> c.args[i].Text?
    ensures c.op in ORDERING ==> forall i :: 0 <= i < |c.args| ==> !c.args[i].Flag?
  {
    KindsIn(c, |c.args|);
    OneKind(kinds);
  }

  // ---- predicates ----

  /** Nil is a missing term, and Other anything that is none of the four kinds of predicate. */
  datatype Predicate =
    | Compare(c: Comparison)
    | AllOf(terms: seq<Predicate>)
    | AnyOf(terms: seq<Predicate>)
    | Negated(term: Predicate)
    | Nil
    | Other

  datatype Error = TooDeep | TooMany | NeedsATerm | NotAPredicate | NeedsTerms | BadComparison | NeedsQueue

  /** How a walk of part of a predicate ended: its first error, the counter after it, and the calls it took. */
  datatype Walk = Walk(error: Option<Error>, nodes: nat, calls: nat)

  ghost function Visit(p: Predicate, depth: int, nodes: nat): Walk
    decreases p, 0
  {
    if depth > MAX_DEPTH then Walk(Some(TooDeep), nodes, 1)
    else if nodes + 1 > MAX_NODES then Walk(Some(TooMany), nodes + 1, 1)
    else
      match p
      case Compare(c) => Walk(if WellCompared(c) then None else Some(BadComparison), nodes + 1, 1)
      case AllOf(terms) =>
        if terms == [] then Walk(Some(NeedsTerms), nodes + 1, 1)
          else VisitTerms(terms, |terms|, depth, Walk(None, nodes + 1, 1))
      case AnyOf(terms) =>
        if terms == [] then Walk(Some(NeedsTerms), nodes + 1, 1)
          else VisitTerms(terms, |terms|, depth, Walk(None, nodes + 1, 1))
      case Negated(term) =>
        if term.Nil? then Walk(Some(NeedsATerm), nodes + 1, 1)
        else var w := Visit(term, depth + 1, nodes + 1); w.(calls := w.calls + 1)
      case _ => Walk(Some(NotAPredicate), nodes + 1, 1)
  }

  /** The first n terms, up to the first that fails. */
  ghost function VisitTerms(terms: seq<Predicate>, n: nat, depth: int, so: Walk): Walk
    requires n <= |terms|
    decreases terms, n
  {
    if n == 0 then so
    else
      var before := VisitTerms(terms, n - 1, depth, so);
      if before.error.Some? then before
      else var w := Visit(terms[n - 1], depth + 1, before.nodes); w.(calls := before.calls + w.calls)
  }

  /** The counter of one walk, and how many calls it has been passed to. */
  class Counter {
    var nodes: nat
    ghost var calls: nat

    constructor ()
      ensures nodes == 0 && calls == 0
    {
      nodes, calls := 0, 0;
    }
  }

  method Validate(p: Predicate, depth: int, counter: Counter) returns (error: Option<Error>)
    modifies counter
    ensures var w := Visit(p, depth, old(counter.nodes));
            error == w.error && counter.nodes == w.nodes && counter.calls == old(counter.calls) + w.calls
    decreases p, 0
  {
    counter.calls := counter.calls + 1;
    if depth > MAX_DEPTH { return Some(TooDeep); }
    counter.nodes := counter.nodes + 1;
    if counter.nodes > MAX_NODES { return Some(TooMany); }
    match p
    case Compare(c) =>
      var ok := ValidateComparison(c);
      return if ok then None else Some(BadComparison);
    case AllOf(terms) => error := ValidateTerms(terms, depth, counter, old(counter.calls));
    case AnyOf(terms) => error := ValidateTerms(terms, depth, counter, old(counter.calls));
    case Negated(term) =>
      if term.Nil? { return Some(NeedsATerm); }
      error := Validate(term, depth + 1, counter);
    case Nil => return Some(NotAPredicate);
    case Other => return Some(NotAPredicate);
  }

  method ValidateTerms(terms: seq<Predicate>, depth: int, counter: Counter, ghost calls: nat)
    returns (error: Option<Error>)
    requires counter.calls == calls + 1
    modifies counter
    ensures terms == [] ==>
            error == Some(NeedsTerms) && counter.nodes == old(counter.nodes) &&
            counter.calls == calls + 1
    ensures terms != [] ==>
              var w := VisitTerms(terms, |terms|, depth, Walk(None, old(counter.nodes), 1));
              error == w.error && counter.nodes == w.nodes && counter.calls == calls + w.calls
    decreases terms, |terms| + 1
  {
    if |terms| == 0 { return Some(NeedsTerms); }
    ghost var so := Walk(None, counter.nodes, 1);
    for i := 0 to |terms|
      invariant var w := VisitTerms(terms, i, depth, so);
                w.error.None? && counter.nodes == w.nodes &&
                counter.calls == calls + w.calls
    {
      var e := Validate(terms[i], depth + 1, counter);
      if e.Some? {
        TermsFailOn(terms, i + 1, |terms|, depth, so);
        return e;
      }
    }
    return None;
  }

  lemma {:induction false} TermsFailOn(terms: seq<Predicate>, i: nat, n: nat, depth: int, so: Walk)
    requires i <= n <= |terms| && VisitTerms(terms, i, depth, so).error.Some?
    ensures VisitTerms(terms, n, depth, so) == VisitTerms(terms, i, depth, so)
  {
    hide Visit;
    if i < n { TermsFailOn(terms, i, n - 1, depth, so); }
  }

  // ---- what is accepted ----

  ghost predicate Well(p: Predicate)
    decreases p
  {
    match p
    case Compare(c) => WellCompared(c)
    case AllOf(terms) => terms != [] && forall i :: 0 <= i < |terms| ==> Well(terms[i])
    case AnyOf(terms) => terms != [] && forall i :: 0 <= i < |terms| ==> Well(terms[i])
    case Negated(term) => Well(term)
    case _ => false
  }

  function Depth(p: Predicate): nat
    decreases p, 0
  {
    match p
    case AllOf(terms) => 1 + DepthOf(terms, |terms|)
    case AnyOf(terms) => 1 + DepthOf(terms, |terms|)
    case Negated(term) => 1 + Depth(term)
    case _ => 1
  }

  /** The depth of the deepest of the first n terms. */
  function DepthOf(terms: seq<Predicate>, n: nat): nat
    requires n <= |terms|
    decreases terms, n
  {
    if n == 0 then 0
    else var a, b := DepthOf(terms, n - 1), Depth(terms[n - 1]); if a < b then b else a
  }

  function Nodes(p: Predicate): nat
    decreases p, 0
  {
    match p
    case AllOf(terms) => 1 + NodesOf(terms, |terms|)
    case AnyOf(terms) => 1 + NodesOf(terms, |terms|)
    case Negated(term) => 1 + Nodes(term)
    case _ => 1
  }

  function NodesOf(terms: seq<Predicate>, n: nat): nat
    requires n <= |terms|
    decreases terms, n
  {
    if n == 0 then 0 else NodesOf(terms, n - 1) + Nodes(terms[n - 1])
  }

  /** A walk of a predicate with `depth` above it and `nodes` before it. */
  ghost predicate Walked(w: Walk, well: bool, deep: int, nodes: nat, size: nat) {
    && (w.error.None? <==> well && deep <= MAX_DEPTH && nodes + size <= MAX_NODES)
    && (w.error.None? ==> w.nodes == nodes + size)
  }

  lemma {:induction false} VisitIff(p: Predicate, depth: int, nodes: nat)
    requires nodes <= MAX_NODES
    ensures Walked(Visit(p, depth, nodes), Well(p), depth - 1 + Depth(p), nodes, Nodes(p))
    decreases p, 0
  {
    hide WellCompared;
    match p
    case AllOf(terms) => if nodes < MAX_NODES {
      TermsIff(terms, |terms|, depth, Walk(None, nodes + 1, 1)); AtLeastOne(terms);
    }
    case AnyOf(terms) => if nodes < MAX_NODES {
      TermsIff(terms, |terms|, depth, Walk(None, nodes + 1, 1)); AtLeastOne(terms);
    }
    case Negated(term) => if nodes < MAX_NODES { VisitIff(term, depth + 1, nodes + 1); }
    case _ =>
  }

  lemma AtLeastOne(terms: seq<Predicate>)
    ensures terms != [] ==> DepthOf(terms, |terms|) >= 1
  {}

  lemma {:induction false} TermsIff(terms: seq<Predicate>, n: nat, depth: int, so: Walk)
    requires n <= |terms| && so.error.None? && so.nodes <= MAX_NODES
    ensures var well := forall i :: 0 <= i < n ==> Well(terms[i]);
            n == 0 || Walked(VisitTerms(terms, n, depth, so), well, depth + DepthOf(terms, n), so.nodes,
                             NodesOf(terms, n))
    decreases terms, n
  {
    hide Visit, Well, Depth, Nodes;
    if n > 0 {
      TermsIff(terms, n - 1, depth, so);
      var before := VisitTerms(terms, n - 1, depth, so);
      if before.error.None? { VisitIff(terms[n - 1], depth + 1, before.nodes); }
      DepthIsPositive(terms[n - 1]);
    }
  }

  lemma DepthIsPositive(p: Predicate)
    ensures Depth(p) >= 1 && Nodes(p) >= 1
  {}

  /** Walking stops in time: every call but a last one that is too deep counts a node, and the count stops at 65. */
  ghost predicate Bounded(w: Walk, nodes: nat) {
    && nodes <= w.nodes <= MAX_NODES + 1 && w.calls <= w.nodes - nodes + 1
    && (w.error.None? ==> w.nodes <= MAX_NODES && w.calls == w.nodes - nodes)
    && (w.nodes == MAX_NODES + 1 ==> w.calls == w.nodes - nodes)
  }

  lemma {:induction false} VisitBounded(p: Predicate, depth: int, nodes: nat)
    requires nodes <= MAX_NODES
    ensures Bounded(Visit(p, depth, nodes), nodes)
    decreases p, 0
  {
    hide WellCompared;
    match p
    case AllOf(terms) => if nodes < MAX_NODES { TermsBounded(terms, |terms|, depth, nodes); }
    case AnyOf(terms) => if nodes < MAX_NODES { TermsBounded(terms, |terms|, depth, nodes); }
    case Negated(term) => if nodes < MAX_NODES { VisitBounded(term, depth + 1, nodes + 1); }
    case _ =>
  }

  lemma {:induction false} TermsBounded(terms: seq<Predicate>, n: nat, depth: int, nodes: nat)
    requires n <= |terms| && nodes < MAX_NODES
    ensures Bounded(VisitTerms(terms, n, depth, Walk(None, nodes + 1, 1)), nodes)
    decreases terms, n
  {
    hide Visit;
    if n > 0 {
      TermsBounded(terms, n - 1, depth, nodes);
      var before := VisitTerms(terms, n - 1, depth, Walk(None, nodes + 1, 1));
      if before.error.None? { VisitBounded(terms[n - 1], depth + 1, before.nodes); }
    }
  }

  /** What New checks: exactly the limits and the form of every node, in at most 65 calls. */
  lemma AcceptedIff(p: Predicate)
    ensures var w := Visit(p, 1, 0);
            && (w.error.None? <==> Well(p) && Depth(p) <= MAX_DEPTH && Nodes(p) <= MAX_NODES)
            && w.calls <= MAX_NODES + 1
  {
    hide Visit, Well;
    VisitIff(p, 1, 0);
    VisitBounded(p, 1, 0);
  }

  // ---- criteria of a queue ----

  /** What a poll may claim from a queue: everything, if there is no predicate. */
  datatype QueueCriteria = QueueCriteria(queue: string, where: Option<Predicate>)

  datatype Made = Made(criteria: QueueCriteria) | Refused(error: Error)

  /** White space, as unicode.IsSpace knows it. */
  predicate IsSpace(c: char) {
    || c == ' ' || '\t' <= c <= '\r' || c == '\U{0085}' || c == '\U{00A0}' || c == '\U{1680}' ||
      '\U{2000}' <= c <= '\U{200A}'
    || c == '\U{2028}' || c == '\U{2029}' || c == '\U{202F}' || c == '\U{205F}' || c == '\U{3000}'
  }

  /** strings.TrimSpace(queue) == "": a queue's name, unlike the texts above, is taken by its characters. */
  predicate IsBlank(queue: string) { forall i :: 0 <= i < |queue| ==> IsSpace(queue[i]) }

  method New(queue: string, where: Option<Predicate>) returns (made: Made)
    ensures made.Made? <==>
            && !IsBlank(queue)
            && (where.Some? ==> Well(where.value) && Depth(where.value) <= MAX_DEPTH && Nodes(where.value) <= MAX_NODES)
    ensures made.Made? ==> made.criteria == QueueCriteria(queue, where)
  {
    hide IsBlank, Visit, Well;
    if IsBlank(queue) { return Refused(NeedsQueue); }
    if where.Some? {
      AcceptedIff(where.value);
      var counter := new Counter();
      var error := Validate(where.value, 1, counter);
      if error.Some? { return Refused(error.value); }
    }
    return Made(QueueCriteria(queue, where));
  }
}
