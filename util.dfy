/**
 * The result type shared by every input, the `assert` helper, and the walk
 * up a DOM element's parent chain (src/util.ts).
 */
module Util {

  /** JavaScript's `undefined` (None) or a present value. */
  datatype Option<T> = None | Some(value: T)

  /** A call that either returns normally or throws an `Error` with a message. */
  datatype Fallible<T> = Returned(value: T) | Threw(message: string)

  /** The outcome of an input: Left carries diagnostics, Right carries a value. */
  datatype Either<L, R> = Left(left: L) | Right(right: R)

  /** The date triple `[year, month, day]`; the month is zero-based. */
  datatype XDate = XDate(year: int, month: int, day: int)

  /** The time pair `[hours, minutes]`; the optional seconds are never set by the inputs. */
  datatype XTime = XTime(hours: int, minutes: int)

  predicate IsLeft<L, R>(e: Either<L, R>) { e.Left? }

  predicate IsRight<L, R>(e: Either<L, R>) { e.Right? }

  /** `left(v)`: a Left holding `v`; any value, the empty list included, is a legal payload. */
  function MakeLeft<L, R>(v: L): (e: Either<L, R>)
    ensures IsLeft(e) && !IsRight(e)
    ensures e.left == v
  {
    Left(v)
  }

  /** `right(v)`: a Right from which `Unwrap` gives `v` back. */
  function MakeRight<L, R>(v: R): (e: Either<L, R>)
    ensures IsRight(e) && !IsLeft(e)
    ensures forall shown :: Unwrap(e, shown) == Returned(v)
  {
    Right(v)
  }

  /**
   * `unwrap()`: the value of a Right; on a Left it always throws, naming the
   * Left's value (`shown` is its `${}` rendering).
   */
  function Unwrap<L, R>(e: Either<L, R>, shown: string): (r: Fallible<R>)
    ensures r.Returned? <==> IsRight(e)
    ensures IsRight(e) ==> r.value == e.right
    ensures IsLeft(e) ==> r.message == "Trying to unwrap a left-valued Either object with value " + shown + "."
  {
    match e
    case Left(_) => Threw("Trying to unwrap a left-valued Either object with value " + shown + ".")
    case Right(v) => Returned(v)
  }

  /** Every Either is exactly one of Left and Right. */
  lemma ExactlyOneVariant<L, R>(e: Either<L, R>)
    ensures IsLeft(e) != IsRight(e)
  {
  }

  const AssertionMessage := "Assertion failed. This is a bug. See the stack trace for more information."

  /** `assert(test)`: returns normally exactly when `test` holds. */
  function Assert(test: bool): (r: Fallible<()>)
    ensures r.Returned? <==> test
    ensures r.Threw? ==> r.message == AssertionMessage
  {
    if test then Returned(()) else Threw(AssertionMessage)
  }

  // ---------------------------------------------------------------------------
  // isChildOf
  // ---------------------------------------------------------------------------

  /** DOM elements, numbered in document order. */
  type Element = nat

  /**
   * `parent[e]` is `e.parentElement`; an element missing from the map has none.
   * In document order every element comes after its parent, which makes the
   * parent relation acyclic.
   */
  predicate DocumentOrdered(parent: map<Element, Element>)
  {
    forall e :: e in parent ==> parent[e] < e
  }

  /** The chain `e, e.parentElement, e.parentElement.parentElement, …` up to the root. */
  function ParentChain(parent: map<Element, Element>, e: Element): (chain: seq<Element>)
    requires DocumentOrdered(parent)
    decreases e
  {
    if e in parent then [e] + ParentChain(parent, parent[e]) else [e]
  }

  /** The chain starts at `e`, descends strictly in document order and ends at a root. */
  lemma {:induction false} ParentChainShape(parent: map<Element, Element>, e: Element)
    requires DocumentOrdered(parent)
    ensures var chain := ParentChain(parent, e);
      && |chain| >= 1 && chain[0] == e
      && chain[|chain| - 1] !in parent
      && (forall i, j :: 0 <= i < j < |chain| ==> chain[j] < chain[i])
      && (forall i :: 0 <= i < |chain| - 1 ==> chain[i] in parent && chain[i + 1] == parent[chain[i]])
    decreases e
  {
    if e in parent {
      ParentChainShape(parent, parent[e]);
    }
  }

  /**
   * `isChildOf(child, ancestor)`: steps `curr` up the parent chain from
   * `child`; true exactly when it meets `ancestor` (which includes `child` itself).
   */
  method IsChildOf(parent: map<Element, Element>, child: Element, ancestor: Element) returns (b: bool)
    requires DocumentOrdered(parent)
    ensures b <==> ancestor in ParentChain(parent, child)
    ensures child == ancestor ==> b
  {
    var curr := child;
    while true
      invariant (ancestor in ParentChain(parent, child)) <==> (ancestor in ParentChain(parent, curr))
      decreases curr
    {
      if curr == ancestor {
        return true;
      }
      if curr !in parent {
        break;
      }
      curr := parent[curr];
    }
    return false;
  }

  /** Being on the parent chain is transitive. */
  lemma {:induction false} ParentChainTransitive(parent: map<Element, Element>, a: Element, b: Element, c: Element)
    requires DocumentOrdered(parent)
    requires b in ParentChain(parent, a) && c in ParentChain(parent, b)
    ensures c in ParentChain(parent, a)
    decreases a
  {
    if a != b {
      assert a in parent;
      ParentChainTransitive(parent, parent[a], b, c);
    }
  }

  /** Two elements each on the other's parent chain are the same element. */
  lemma ParentChainAntisymmetric(parent: map<Element, Element>, a: Element, b: Element)
    requires DocumentOrdered(parent)
    requires b in ParentChain(parent, a) && a in ParentChain(parent, b)
    ensures a == b
  {
    ParentChainBelow(parent, a, b);
    ParentChainBelow(parent, b, a);
  }

  /** Every element on the chain from `a` comes no later than `a` in document order. */
  lemma {:induction false} ParentChainBelow(parent: map<Element, Element>, a: Element, b: Element)
    requires DocumentOrdered(parent)
    requires b in ParentChain(parent, a)
    ensures b <= a
    decreases a
  {
    if a != b {
      ParentChainBelow(parent, parent[a], b);
    }
  }
}
