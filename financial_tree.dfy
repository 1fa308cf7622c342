/**
 * The nested statement shape that the hierarchy builder produces and the
 * hierarchical renderer consumes: an insertion-ordered mapping from a label to a
 * node holding per-year amounts, a `has_details` flag and, optionally, a nested
 * mapping of child nodes.
 */
module FinancialTree {
  import opened Common

  /** Year label ("2023") to amount; a year without an amount has no entry. */
  type Amounts = map<string, int>

  datatype Node = Node(amount: Amounts, hasDetails: bool, details: Details)

  /** The `details` member of a node: absent, or a nested mapping (possibly empty). */
  datatype Details = Absent | Present(entries: seq<Entry>)

  /** One `name: node` pair of an insertion-ordered mapping. */
  datatype Entry = Entry(name: string, node: Node)

  type Tree = seq<Entry>

  function Labels(t: Tree): (r: seq<string>)
    ensures |r| == |t| && forall i :: 0 <= i < |t| ==> r[i] == t[i].name
  {
    if t == [] then [] else [t[0].name] + Labels(t[1..])
  }

  /** The node stored under a label, as a dictionary lookup on the ordered mapping. */
  function Find(es: seq<Entry>, name: string): Option<Node>
  {
    if es == [] then None else if es[0].name == name then Some(es[0].node) else Find(es[1..], name)
  }

  /**
   * Dictionary assignment on the ordered mapping: an existing label keeps its
   * position and takes the new node; a new label goes at the end.
   */
  function Put(es: seq<Entry>, name: string, node: Node): (r: seq<Entry>)
    ensures |r| == |es| || |r| == |es| + 1
  {
    if es == [] then [Entry(name, node)]
    else if es[0].name == name then [Entry(name, node)] + es[1..]
    else [es[0]] + Put(es[1..], name, node)
  }

  /** After an assignment, looking up the label gives the new node and every other label is unaffected. */
  lemma {:induction false} FindPut(es: seq<Entry>, name: string, node: Node, other: string)
    ensures Find(Put(es, name, node), other) == if other == name then Some(node) else Find(es, other)
    decreases |es|
  {
    if es != [] && es[0].name != name {
      FindPut(es[1..], name, node, other);
      assert Put(es, name, node)[1..] == Put(es[1..], name, node);
    }
  }

  /** Assigning a label that is not yet present appends it. */
  lemma {:induction false} PutAbsent(es: seq<Entry>, name: string, node: Node)
    requires name !in Labels(es)
    ensures Put(es, name, node) == es + [Entry(name, node)]
    decreases |es|
  {
    if es != [] {
      assert es[0].name == Labels(es)[0];
      assert Labels(es[1..]) == Labels(es)[1..];
      PutAbsent(es[1..], name, node);
      assert es == [es[0]] + es[1..];
    }
  }

  /** Every entry after an assignment is either the assigned one or an entry that was already there. */
  lemma {:induction false} PutEntries(es: seq<Entry>, name: string, node: Node)
    ensures forall e :: e in Put(es, name, node) ==> e == Entry(name, node) || e in es
    decreases |es|
  {
    if es != [] && es[0].name != name {
      PutEntries(es[1..], name, node);
      assert Put(es, name, node) == [es[0]] + Put(es[1..], name, node);
      forall e | e in Put(es, name, node) ensures e == Entry(name, node) || e in es {
        if e != es[0] {
          assert e in Put(es[1..], name, node);
        }
      }
    }
  }

  lemma {:induction false} LabelsPut(es: seq<Entry>, name: string, node: Node)
    ensures forall k :: k in Labels(Put(es, name, node)) <==> k == name || k in Labels(es)
    decreases |es|
  {
    if es != [] && es[0].name != name {
      LabelsPut(es[1..], name, node);
      assert Labels(Put(es, name, node)) == [es[0].name] + Labels(Put(es[1..], name, node));
      assert Labels(es) == [es[0].name] + Labels(es[1..]);
    }
  }

  /** The amount for a year, where a missing year counts as the 0 a running total starts from. */
  function AmountOf(amount: Amounts, year: string): int
  {
    if year in amount then amount[year] else 0
  }

  /** Every year on which at least one of the entries has an amount. */
  function ChildYears(children: seq<Entry>): set<string>
  {
    if children == [] then {}
    else ChildYears(children[..|children| - 1]) + children[|children| - 1].node.amount.Keys
  }

  /** The sum of the entries' amounts for one year. */
  function ChildSum(children: seq<Entry>, year: string): int
  {
    if children == [] then 0
    else ChildSum(children[..|children| - 1], year) + AmountOf(children[|children| - 1].node.amount, year)
  }

  /** Appending a child adds its years and, year by year, its amount. */
  lemma ChildSnoc(children: seq<Entry>, e: Entry)
    ensures ChildYears(children + [e]) == ChildYears(children) + e.node.amount.Keys
    ensures forall y :: ChildSum(children + [e], y) == ChildSum(children, y) + AmountOf(e.node.amount, y)
  {
    assert (children + [e])[..|children + [e]| - 1] == children;
  }

  /** `amount` holds, for exactly the children's years, the total of the children. */
  ghost predicate IsChildTotal(amount: Amounts, children: seq<Entry>)
  {
    && amount.Keys == ChildYears(children)
    && forall y :: y in amount ==> amount[y] == ChildSum(children, y)
  }

  /** Every node with details carries, year by year, the total of its children. */
  ghost predicate TotalsConsistent(t: Tree)
  {
    forall i :: 0 <= i < |t| ==> NodeTotalsConsistent(t[i].node)
  }

  ghost predicate NodeTotalsConsistent(n: Node)
    decreases n
  {
    && (n.hasDetails && n.details.Present? ==> IsChildTotal(n.amount, n.details.entries))
    && (n.details.Present? ==>
          forall i :: 0 <= i < |n.details.entries| ==> NodeTotalsConsistent(n.details.entries[i].node))
  }

  /** A node carries a `details` mapping exactly when its flag says it has details. */
  ghost predicate DetailsMatchFlag(t: Tree)
  {
    forall i :: 0 <= i < |t| ==> NodeDetailsMatchFlag(t[i].node)
  }

  ghost predicate NodeDetailsMatchFlag(n: Node)
    decreases n
  {
    && (n.details.Present? <==> n.hasDetails)
    && (n.details.Present? ==>
          forall i :: 0 <= i < |n.details.entries| ==> NodeDetailsMatchFlag(n.details.entries[i].node))
  }
}
