/** Criteria as they are sent to the server: nothing unset, and the same meaning. */
module CriteriaWire {
  import opened Topology
  import opened Criteria

  // Encoding a validated predicate loses only the type an attribute was declared with.

  /** A literal as the message carries it: one of four kinds, or none set. */
  datatype Literal = LiteralUnset | OfFlag(flag: bool) | OfInteger(n: int) | OfDecimal(digits: string)
                   | OfText(text: string)

  /** A predicate as the message carries it, with one kind set, or none. */
  datatype Message =
    | Unset
    | OfComparison(field: string, op: string, attribute: string, args: seq<Literal>)
    | OfAll(terms: seq<Message>)
    | OfAny(terms: seq<Message>)
    | OfNegated(term: Message)

  datatype QueueMessage = QueueMessage(queue: string, where: Option<Message>)

  // ---- encoding ----

  function EncodedArg(a: Arg): Literal {
    match a
    case Flag(flag) => OfFlag(flag)
    case Integer(n) => OfInteger(n)
    case Decimal(digits) => OfDecimal(digits)
    case Text(text) => OfText(text)
    case Foreign => LiteralUnset
  }

  function EncodedArgs(args: seq<Arg>): (literals: seq<Literal>)
    ensures |literals| == |args|
  {
    seq(|args|, i requires 0 <= i < |args| => EncodedArg(args[i]))
  }

  function Encoded(p: Predicate): Message
    decreases p
  {
    match p
    case Compare(c) => OfComparison(c.attribute.field, c.op, c.attribute.name, EncodedArgs(c.args))
    case AllOf(terms) => OfAll(seq(|terms|, i requires 0 <= i < |terms| => Encoded(terms[i])))
    case AnyOf(terms) => OfAny(seq(|terms|, i requires 0 <= i < |terms| => Encoded(terms[i])))
    case Negated(term) => OfNegated(Encoded(term))
    case _ => Unset
  }

  method CriteriaProto(c: QueueCriteria) returns (m: QueueMessage)
    ensures m.queue == c.queue && (m.where.Some? <==> c.where.Some?)
    ensures c.where.Some? ==> m.where.value == Encoded(c.where.value)
  {
    m := QueueMessage(c.queue, None);
    if c.where.Some? {
      var where := PredicateProto(c.where.value);
      m := m.(where := Some(where));
    }
  }

  method PredicateProto(p: Predicate) returns (m: Message)
    ensures m == Encoded(p)
    decreases p, 0
  {
    match p
    case Compare(c) =>
      var args: seq<Literal> := [];
      for i := 0 to |c.args|
        invariant args == EncodedArgs(c.args)[..i]
      {
        args := args + [EncodedArg(c.args[i])];
      }
      return OfComparison(c.attribute.field, c.op, c.attribute.name, args);
    case AllOf(terms) =>
      var encoded := JunctionProto(terms);
      return OfAll(encoded);
    case AnyOf(terms) =>
      var encoded := JunctionProto(terms);
      return OfAny(encoded);
    case Negated(term) =>
      var encoded := PredicateProto(term);
      return OfNegated(encoded);
    case Nil => return Unset;
    case Other => return Unset;
  }

  method JunctionProto(terms: seq<Predicate>) returns (encoded: seq<Message>)
    ensures encoded == seq(|terms|, i requires 0 <= i < |terms| => Encoded(terms[i]))
    decreases terms, |terms| + 1
  {
    encoded := [];
    for i := 0 to |terms|
      invariant |encoded| == i && forall x :: 0 <= x < i ==> encoded[x] == Encoded(terms[x])
    {
      var term := PredicateProto(terms[i]);
      encoded := encoded + [term];
    }
  }

  // ---- nothing is left unset ----

  ghost predicate Complete(m: Message)
    decreases m
  {
    match m
    case Unset => false
    case OfComparison(_, _, _, args) => forall i :: 0 <= i < |args| ==> !args[i].LiteralUnset?
    case OfAll(terms) => forall i :: 0 <= i < |terms| ==> Complete(terms[i])
    case OfAny(terms) => forall i :: 0 <= i < |terms| ==> Complete(terms[i])
    case OfNegated(term) => Complete(term)
  }

  lemma {:induction false} EncodedIsComplete(p: Predicate)
    requires Well(p)
    ensures Complete(Encoded(p))
    decreases p
  {
    match p
    case Compare(c) =>
      forall i | 0 <= i < |c.args| ensures !EncodedArg(c.args[i]).LiteralUnset? {
        assert FitsType(c.args[i], c.attribute.type_);
      }
    case AllOf(terms) => forall i | 0 <= i < |terms| ensures Complete(Encoded(terms[i])) {
      EncodedIsComplete(terms[i]);
    }
    case AnyOf(terms) => forall i | 0 <= i < |terms| ensures Complete(Encoded(terms[i])) {
      EncodedIsComplete(terms[i]);
    }
    case Negated(term) => EncodedIsComplete(term);
  }

  // ---- decoding ----

  function DecodedArg(l: Literal): Arg {
    match l
    case OfFlag(flag) => Flag(flag)
    case OfInteger(n) => Integer(n)
    case OfDecimal(digits) => Decimal(digits)
    case OfText(text) => Text(text)
    case LiteralUnset => Foreign
  }

  function DecodedArgs(literals: seq<Literal>): (args: seq<Arg>)
    ensures |args| == |literals|
  {
    seq(|literals|, i requires 0 <= i < |literals| => DecodedArg(literals[i]))
  }

  function Decoded(m: Message): Predicate
    decreases m
  {
    match m
    case OfComparison(field, op, attribute, args) =>
      Compare(Comparison(Attribute(field, attribute, ""), op, DecodedArgs(args)))
    case OfAll(terms) => AllOf(seq(|terms|, i requires 0 <= i < |terms| => Decoded(terms[i])))
    case OfAny(terms) => AnyOf(seq(|terms|, i requires 0 <= i < |terms| => Decoded(terms[i])))
    case OfNegated(term) => Negated(Decoded(term))
    case Unset => Other
  }

  /** A predicate without the types of its attributes, which are not sent. */
  function Untyped(p: Predicate): Predicate
    decreases p
  {
    match p
    case Compare(c) => Compare(c.(attribute := c.attribute.(type_ := "")))
    case AllOf(terms) => AllOf(seq(|terms|, i requires 0 <= i < |terms| => Untyped(terms[i])))
    case AnyOf(terms) => AnyOf(seq(|terms|, i requires 0 <= i < |terms| => Untyped(terms[i])))
    case Negated(term) => Negated(Untyped(term))
    case _ => p
  }

  lemma {:induction false} RoundTrip(p: Predicate)
    requires Well(p)
    ensures Decoded(Encoded(p)) == Untyped(p)
    decreases p
  {
    match p
    case Compare(c) =>
    case AllOf(terms) => forall i | 0 <= i < |terms| ensures Decoded(Encoded(terms[i])) == Untyped(terms[i]) {
      RoundTrip(terms[i]);
    }
    case AnyOf(terms) => forall i | 0 <= i < |terms| ensures Decoded(Encoded(terms[i])) == Untyped(terms[i]) {
      RoundTrip(terms[i]);
    }
    case Negated(term) => RoundTrip(term);
  }

  // ---- meaning ----

  /**
   * A ready task: the value of each field (or declared attribute), if it has one, and how the operators compare a
   * value it has with others.
   */
  datatype Ready<!V> = Ready(value: (string, string) -> Option<V>, compare: (string, V, seq<Arg>) -> bool)

  /** The server's rule for a comparison: one of a value that is not there is false, unless it asks for that. */
  predicate Compares<V>(t: Ready<V>, field: string, attribute: string, op: string, args: seq<Arg>) {
    var v := t.value(field, attribute);
    if op == "IS_NULL" then v.None?
    else if op == "IS_NOT_NULL" then v.Some?
    else v.Some? && t.compare(op, v.value, args)
  }

  /** A predicate as it is written, of the values it is written with. */
  ghost predicate Holds<V>(p: Predicate, t: Ready<V>)
    decreases p
  {
    match p
    case Compare(c) => Compares(t, c.attribute.field, c.attribute.name, c.op, c.args)
    case AllOf(terms) => forall i :: 0 <= i < |terms| ==> Holds(terms[i], t)
    case AnyOf(terms) => exists i :: 0 <= i < |terms| && Holds(terms[i], t)
    case Negated(term) => !Holds(term, t)
    case _ => false
  }

  /** A message as the server evaluates it, term by term, of the values it decodes; None if any of it is unset. */
  function Answer<V>(m: Message, t: Ready<V>): Option<bool>
    decreases m, 0
  {
    match m
    case Unset => None
    case OfComparison(field, op, attribute, args) =>
      if LiteralUnset in args then None else Some(Compares(t, field, attribute, op, DecodedArgs(args)))
    case OfAll(terms) => AnswerAll(terms, |terms|, t)
    case OfAny(terms) => AnswerAny(terms, |terms|, t)
    case OfNegated(term) => var a := Answer(term, t); if a.Some? then Some(!a.value) else None
  }

  function AnswerAll<V>(terms: seq<Message>, n: nat, t: Ready<V>): Option<bool>
    requires n <= |terms|
    decreases terms, n
  {
    if n == 0 then Some(true)
    else
      var a, b := AnswerAll(terms, n - 1, t), Answer(terms[n - 1], t);
      if a.Some? && b.Some? then Some(a.value && b.value) else None
  }

  function AnswerAny<V>(terms: seq<Message>, n: nat, t: Ready<V>): Option<bool>
    requires n <= |terms|
    decreases terms, n
  {
    if n == 0 then Some(false)
    else
      var a, b := AnswerAny(terms, n - 1, t), Answer(terms[n - 1], t);
      if a.Some? && b.Some? then Some(a.value || b.value) else None
  }

  /** The message of a validated predicate means what the predicate does, for every task. */
  lemma {:induction false} MeaningIsSent<V>(p: Predicate, t: Ready<V>)
    requires Well(p)
    ensures Answer(Encoded(p), t) == Some(Holds(p, t))
    decreases p, 0
  {
    match p
    case Compare(c) =>
      forall i | 0 <= i < |c.args| ensures EncodedArgs(c.args)[i] != LiteralUnset {
        assert FitsType(c.args[i], c.attribute.type_);
      }
      assert DecodedArgs(EncodedArgs(c.args)) == c.args;
    case AllOf(terms) => AllSent(terms, |terms|, Encoded(p).terms, t);
    case AnyOf(terms) => AnySent(terms, |terms|, Encoded(p).terms, t);
    case Negated(term) => MeaningIsSent(term, t);
  }

  lemma {:induction false} AllSent<V>(terms: seq<Predicate>, n: nat, sent: seq<Message>, t: Ready<V>)
    requires n <= |terms| == |sent| && forall i :: 0 <= i < |terms| ==> Well(terms[i]) && sent[i] == Encoded(terms[i])
    ensures AnswerAll(sent, n, t) == Some(forall i :: 0 <= i < n ==> Holds(terms[i], t))
    decreases terms, n
  {
    hide Answer, Holds, Encoded, Well;
    if n > 0 {
      AllSent(terms, n - 1, sent, t);
      MeaningIsSent(terms[n - 1], t);
    }
  }

  lemma {:induction false} AnySent<V>(terms: seq<Predicate>, n: nat, sent: seq<Message>, t: Ready<V>)
    requires n <= |terms| == |sent| && forall i :: 0 <= i < |terms| ==> Well(terms[i]) && sent[i] == Encoded(terms[i])
    ensures AnswerAny(sent, n, t) == Some(exists i :: 0 <= i < n && Holds(terms[i], t))
    decreases terms, n
  {
    hide Answer, Holds, Encoded, Well;
    if n > 0 {
      AnySent(terms, n - 1, sent, t);
      MeaningIsSent(terms[n - 1], t);
    }
  }

  /** A comparison on a value a task does not have is false, unless it asks for absence; and Not of it is true. */
  lemma AbsentIsFalse<V>(c: Comparison, t: Ready<V>)
    requires WellCompared(c) && t.value(c.attribute.field, c.attribute.name).None?
    ensures Answer(Encoded(Compare(c)), t) == Some(c.op == "IS_NULL")
    ensures Answer(Encoded(Negated(Compare(c))), t) == Some(c.op != "IS_NULL")
  {
    MeaningIsSent(Compare(c), t);
    MeaningIsSent(Negated(Compare(c)), t);
  }
}
