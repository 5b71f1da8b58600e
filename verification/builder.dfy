/** The convertor state's builder calls, recorded as an operation log, and
    what it means for a log to open and close nodes and marks in matching
    pairs. */
module Builder {
  import opened Wrappers
  import opened JsValue

  /** An attribute object passed to `openNode`, `addNode` or `create`. */
  type Attrs = map<string, Value>

  /** A type looked up in the schema, by name, in either the node registry
      (`schema.nodes`) or the mark registry (`schema.marks`). */
  datatype SchemaType = NodeOf(name: string) | MarkOf(name: string)

  /** One builder call. `OpenNode` always names a node type; `AddNode`,
      `OpenMark` and `CloseMark` carry whatever type the handler passed. The
      `skipChildren` callback appears as `SkipChildren`. */
  datatype Op =
    | OpenNode(node: string, attrs: Attrs)
    | CloseNode
    | AddNode(target: SchemaType, attrs: Attrs)
    | AddText(text: string)
    | OpenMark(target: SchemaType, attrs: Attrs)
    | CloseMark(target: SchemaType)
    | SkipChildren

  /** What the builder's stack looks like from outside: how many nodes are
      open and which mark types are open (with multiplicity). */
  datatype Frame = Frame(depth: nat, marks: multiset<SchemaType>)

  const Empty: Frame := Frame(0, multiset{})

  /** The effect of one call on the frame; `None` when the call closes a node
      or mark that is not open. */
  function Step(f: Frame, op: Op): Option<Frame> {
    match op
    case OpenNode(_, _) => Some(Frame(f.depth + 1, f.marks))
    case CloseNode => if f.depth == 0 then None else Some(Frame(f.depth - 1, f.marks))
    case OpenMark(t, _) => Some(Frame(f.depth, f.marks + multiset{t}))
    case CloseMark(t) => if t in f.marks then Some(Frame(f.depth, f.marks - multiset{t})) else None
    case _ => Some(f)
  }

  /** The frame after a whole log, or `None` if some call closes what is not open. */
  function Run(f: Frame, ops: seq<Op>): Option<Frame>
    decreases |ops|
  {
    if ops == [] then Some(f)
    else match Step(f, ops[0])
      case None => None
      case Some(g) => Run(g, ops[1..])
  }

  /** Every close in the log matches an earlier open, and nothing is left open. */
  predicate Balanced(ops: seq<Op>) {
    Run(Empty, ops) == Some(Empty)
  }

  /** The call that closes what `open` opens: `closeNode()` for a node,
      `closeMark(type)` for a mark. */
  function Closer(open: Op): (close: Op)
    requires open.OpenNode? || open.OpenMark?
    ensures close.CloseNode? <==> open.OpenNode?
    ensures close.CloseMark? ==> close.target == open.target
  {
    if open.OpenNode? then CloseNode else CloseMark(open.target)
  }

  /** Frame `f` with the nodes and marks of `outer` open beneath it. */
  function Under(f: Frame, outer: Frame): Frame {
    Frame(f.depth + outer.depth, f.marks + outer.marks)
  }

  /** Number of `openNode` calls. */
  function NodeOpens(ops: seq<Op>): nat {
    if ops == [] then 0 else (if ops[0].OpenNode? then 1 else 0) + NodeOpens(ops[1..])
  }

  /** Number of `closeNode` calls. */
  function NodeCloses(ops: seq<Op>): nat {
    if ops == [] then 0 else (if ops[0].CloseNode? then 1 else 0) + NodeCloses(ops[1..])
  }

  /** The mark type one call opens, if any. */
  function OpenedBy(op: Op): multiset<SchemaType> {
    if op.OpenMark? then multiset{op.target} else multiset{}
  }

  /** The mark type one call closes, if any. */
  function ClosedBy(op: Op): multiset<SchemaType> {
    if op.CloseMark? then multiset{op.target} else multiset{}
  }

  /** The mark types opened, with multiplicity. */
  function MarkOpens(ops: seq<Op>): multiset<SchemaType> {
    if ops == [] then multiset{} else OpenedBy(ops[0]) + MarkOpens(ops[1..])
  }

  /** The mark types closed, with multiplicity. */
  function MarkCloses(ops: seq<Op>): multiset<SchemaType> {
    if ops == [] then multiset{} else ClosedBy(ops[0]) + MarkCloses(ops[1..])
  }

  /** Running two logs one after the other is running their concatenation. */
  lemma {:induction false} RunAppend(f: Frame, a: seq<Op>, b: seq<Op>)
    ensures Run(f, a + b) == (match Run(f, a) case None => None case Some(g) => Run(g, b))
    decreases |a|
  {
    if a == [] {
      assert a + b == b;
    } else {
      assert (a + b)[0] == a[0];
      assert (a + b)[1..] == a[1..] + b;
      match Step(f, a[0])
      case None =>
      case Some(g) => RunAppend(g, a[1..], b);
    }
  }

  /** A log that runs to completion changes the depth by its node opens
      minus its node closes. */
  lemma {:induction false} RunDepth(f: Frame, ops: seq<Op>)
    requires Run(f, ops).Some?
    ensures Run(f, ops).value.depth + NodeCloses(ops) == f.depth + NodeOpens(ops)
    decreases |ops|
  {
    if ops != [] {
      RunDepth(Step(f, ops[0]).value, ops[1..]);
    }
  }

  /** One successful call changes the open marks by what it opens minus what it closes. */
  lemma StepMarks(f: Frame, op: Op)
    requires Step(f, op).Some?
    ensures Step(f, op).value.marks + ClosedBy(op) == f.marks + OpenedBy(op)
  {
  }

  /** A log that runs to completion changes the open marks by the marks it
      opens minus the marks it closes. */
  lemma {:induction false} RunMarks(f: Frame, ops: seq<Op>)
    requires Run(f, ops).Some?
    ensures Run(f, ops).value.marks + MarkCloses(ops) == f.marks + MarkOpens(ops)
    decreases |ops|
  {
    if ops != [] {
      var g := Step(f, ops[0]).value;
      var rest := ops[1..];
      RunMarks(g, rest);
      StepMarks(f, ops[0]);
      var h := Run(g, rest).value;
      calc {
        h.marks + MarkCloses(ops);
        h.marks + MarkCloses(rest) + ClosedBy(ops[0]);
        g.marks + ClosedBy(ops[0]) + MarkOpens(rest);
        f.marks + OpenedBy(ops[0]) + MarkOpens(rest);
      }
    }
  }

  /** A balanced log opens as many nodes as it closes, and opens each mark
      type exactly as often as it closes it. */
  lemma BalancedCounts(ops: seq<Op>)
    requires Balanced(ops)
    ensures NodeOpens(ops) == NodeCloses(ops)
    ensures MarkOpens(ops) == MarkCloses(ops)
    ensures forall t :: MarkOpens(ops)[t] == MarkCloses(ops)[t]
  {
    RunDepth(Empty, ops);
    RunMarks(Empty, ops);
    assert multiset{} + MarkCloses(ops) == MarkCloses(ops);
    assert multiset{} + MarkOpens(ops) == MarkOpens(ops);
  }

  /** A one-call log runs as that call's step. */
  lemma RunOne(f: Frame, op: Op)
    ensures Run(f, [op]) == Step(f, op)
  {
    assert [op][1..] == [];
  }

  /** Opening `open` from the empty frame leaves exactly that node or mark open. */
  lemma RunOpen(open: Op)
    requires open.OpenNode? || open.OpenMark?
    ensures open.OpenNode? ==> Run(Empty, [open]) == Some(Frame(1, multiset{}))
    ensures open.OpenMark? ==> Run(Empty, [open]) == Some(Frame(0, multiset{open.target}))
  {
    RunOne(Empty, open);
    if open.OpenMark? {
      assert multiset{} + multiset{open.target} == multiset{open.target};
    }
  }

  /** Removing one occurrence of `t` from a sum takes it from the side that has it. */
  lemma RemoveFromSum(a: multiset<SchemaType>, b: multiset<SchemaType>, t: SchemaType)
    requires t in a
    ensures (a + b) - multiset{t} == (a - multiset{t}) + b
  {
    forall x ensures ((a + b) - multiset{t})[x] == ((a - multiset{t}) + b)[x] {
    }
  }

  /** Opening mark `t` steps the same way with `outer` beneath. */
  lemma OpenMarkUnder(f: Frame, outer: Frame, t: SchemaType, attrs: Attrs)
    ensures Step(Under(f, outer), OpenMark(t, attrs))
            == Some(Under(Frame(f.depth, f.marks + multiset{t}), outer))
  {
    forall x ensures (f.marks + outer.marks + multiset{t})[x] == (f.marks + multiset{t} + outer.marks)[x] {
    }
    assert f.marks + outer.marks + multiset{t} == f.marks + multiset{t} + outer.marks;
  }

  /** Closing an open mark `t` steps the same way with `outer` beneath. */
  lemma CloseMarkUnder(f: Frame, outer: Frame, t: SchemaType)
    requires t in f.marks
    ensures Step(Under(f, outer), CloseMark(t))
            == Some(Under(Frame(f.depth, f.marks - multiset{t}), outer))
  {
    RemoveFromSum(f.marks, outer.marks, t);
  }

  /** Closing an open node steps the same way with `outer` beneath. */
  lemma CloseNodeUnder(f: Frame, outer: Frame)
    requires f.depth > 0
    ensures Step(Under(f, outer), CloseNode) == Some(Under(Frame(f.depth - 1, f.marks), outer))
  {
  }

  /** One call steps the same way with more nodes and marks open beneath. */
  lemma StepUnder(f: Frame, outer: Frame, op: Op)
    requires Step(f, op).Some?
    ensures Step(Under(f, outer), op) == Some(Under(Step(f, op).value, outer))
  {
    match op
    case OpenMark(t, attrs) => OpenMarkUnder(f, outer, t, attrs);
    case CloseMark(t) => CloseMarkUnder(f, outer, t);
    case CloseNode => CloseNodeUnder(f, outer);
    case OpenNode(_, _) =>
    case AddNode(_, _) =>
    case AddText(_) =>
    case SkipChildren =>
  }

  /** A log that runs from `f` runs the same way with more nodes and marks
      open beneath: the builder never looks below what the log opened. */
  lemma {:induction false} RunUnder(f: Frame, outer: Frame, ops: seq<Op>)
    requires Run(f, ops).Some?
    ensures Run(Under(f, outer), ops) == Some(Under(Run(f, ops).value, outer))
    decreases |ops|
  {
    if ops != [] {
      StepUnder(f, outer, ops[0]);
      RunUnder(Step(f, ops[0]).value, outer, ops[1..]);
    }
  }

  /** Two balanced logs in a row are balanced. */
  lemma BalancedConcat(a: seq<Op>, b: seq<Op>)
    requires Balanced(a) && Balanced(b)
    ensures Balanced(a + b)
  {
    RunAppend(Empty, a, b);
  }

  /** A balanced log wrapped in an open call and its closer is balanced. */
  lemma BalancedWrap(open: Op, inner: seq<Op>)
    requires open.OpenNode? || open.OpenMark?
    requires Balanced(inner)
    ensures Balanced([open] + inner + [Closer(open)])
  {
    RunOpen(open);
    var entered := Run(Empty, [open]).value;
    RunUnder(Empty, entered, inner);
    assert Under(Empty, entered) == entered;
    RunAppend(Empty, [open], inner);
    assert Run(Empty, [open] + inner) == Some(entered);
    RunAppend(Empty, [open] + inner, [Closer(open)]);
    RunOne(entered, Closer(open));
    assert Run(entered, [Closer(open)]) == Some(Empty);
  }

  /** A single call that neither opens nor closes is balanced on its own. */
  lemma BalancedNeutral(op: Op)
    requires !op.OpenNode? && !op.CloseNode? && !op.OpenMark? && !op.CloseMark?
    ensures Balanced([op])
  {
    RunOne(Empty, op);
  }
}
