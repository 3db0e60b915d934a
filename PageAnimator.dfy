/** The page animator: when triggered it collects the page's structural
    elements (each once, in selector order, or the body's children when none
    is found) and gives element i an entrance direction chosen by i mod 4, a
    transition delay of i times the stagger, and an "enter-in" class later.
    The document is a parameter: `query` stands for `querySelectorAll` and
    element identity is equality of `E`. */
module PageAnimator {
  import opened Types

  const Selectors: seq<string> :=
    ["header", ".hero", ".Hero", ".header", ".Header", "main", ".main", ".content", ".container", "footer"]

  const DefaultStagger := 90

  const DirectionClasses: seq<string> := ["enter-from-top", "enter-from-left", "enter-from-right", "enter-from-bottom"]
  const EnterIn := "enter-in"

  /** The classes removed from every element before its direction is added */
  const AnimationClasses: set<string> := set c | c in DirectionClasses + [EnterIn]

  const EnterInOffsetMs := 20
  const CleanupSlackMs := 800

  /* ── Collecting the targets ── */

  /** What the selectors find, one selector after the other */
  function FoundInOrder<E>(query: string -> seq<E>, selectors: seq<string>): seq<E>
    decreases |selectors|
  {
    if selectors == [] then []
    else FoundInOrder(query, selectors[..|selectors| - 1]) + query(selectors[|selectors| - 1])
  }

  /** Each element once, kept where it first occurs */
  function Dedup<E(==)>(xs: seq<E>): seq<E>
    decreases |xs|
  {
    if xs == [] then []
    else
      var kept := Dedup(xs[..|xs| - 1]);
      if xs[|xs| - 1] in kept then kept else kept + [xs[|xs| - 1]]
  }

  /** The position of the first occurrence of x */
  function FirstIndex<E(==)>(xs: seq<E>, x: E): (i: nat)
    requires x in xs
    ensures i < |xs| && xs[i] == x && x !in xs[..i]
  {
    if xs[0] == x then 0
    else
      var i := FirstIndex(xs[1..], x);
      assert xs[..i + 1] == [xs[0]] + xs[1..][..i];
      i + 1
  }

  /** Appending an element does not move the first occurrence of one already present. */
  lemma FirstIndexAppend<E>(xs: seq<E>, y: E, x: E)
    requires x in xs
    ensures FirstIndex(xs + [y], x) == FirstIndex(xs, x)
  {
    var i := FirstIndex(xs, x);
    assert (xs + [y])[i] == x;
  }

  /** De-duplication keeps exactly the elements of its input. */
  lemma {:induction false} DedupSameElements<E>(xs: seq<E>)
    ensures forall x :: x in Dedup(xs) <==> x in xs
    decreases |xs|
  {
    if xs != [] {
      var init := xs[..|xs| - 1];
      DedupSameElements(init);
      assert xs == init + [xs[|xs| - 1]];
    }
  }

  /** De-duplication leaves no element twice. */
  lemma {:induction false} DedupDistinct<E>(xs: seq<E>)
    ensures forall i, j :: 0 <= i < j < |Dedup(xs)| ==> Dedup(xs)[i] != Dedup(xs)[j]
    decreases |xs|
  {
    if xs != [] {
      DedupDistinct(xs[..|xs| - 1]);
    }
  }

  /** De-duplication orders the elements by their first occurrence. */
  lemma {:induction false} DedupFirstOccurrenceOrder<E>(xs: seq<E>)
    ensures forall x :: x in Dedup(xs) ==> x in xs
    ensures forall i, j :: 0 <= i < j < |Dedup(xs)| ==>
      FirstIndex(xs, Dedup(xs)[i]) < FirstIndex(xs, Dedup(xs)[j])
    decreases |xs|
  {
    DedupSameElements(xs);
    if xs != [] {
      var init := xs[..|xs| - 1];
      var y := xs[|xs| - 1];
      assert xs == init + [y];
      var kept := Dedup(init);
      DedupFirstOccurrenceOrder(init);
      DedupSameElements(init);
      forall x | x in kept
        ensures FirstIndex(xs, x) == FirstIndex(init, x)
      {
        FirstIndexAppend(init, y, x);
      }
      if y !in kept {
        assert y !in init;
        assert FirstIndex(xs, y) == |init|;
      }
    }
  }

  /** The targets as the effect's loops leave them, before the fallback */
  function Targets<E(==)>(query: string -> seq<E>): seq<E> {
    Dedup(FoundInOrder(query, Selectors))
  }

  /** The effect's collection loops, the `seen` set and the fallback to the
      body's children when no selector finds anything. */
  method CollectTargets<E(==)>(query: string -> seq<E>, bodyChildren: seq<E>) returns (elements: seq<E>)
    ensures Targets(query) != [] ==> elements == Targets(query)
    ensures Targets(query) == [] ==> elements == bodyChildren
  {
    var seen: set<E> := {};
    elements := [];
    var s := 0;
    while s < |Selectors|
      invariant 0 <= s <= |Selectors|
      invariant elements == Dedup(FoundInOrder(query, Selectors[..s]))
      invariant forall x :: x in seen <==> x in elements
    {
      var found := query(Selectors[s]);
      ghost var before := FoundInOrder(query, Selectors[..s]);
      var k := 0;
      assert before + found[..0] == before;
      while k < |found|
        invariant 0 <= k <= |found|
        invariant elements == Dedup(before + found[..k])
        invariant forall x :: x in seen <==> x in elements
      {
        var el := found[k];
        assert before + found[..k + 1] == (before + found[..k]) + [el];
        if el !in seen {
          seen := seen + {el};
          elements := elements + [el];
        }
        k := k + 1;
      }
      assert Selectors[..s + 1][..s] == Selectors[..s];
      assert found[..|found|] == found;
      s := s + 1;
    }
    assert Selectors[..|Selectors|] == Selectors;
    if |elements| == 0 {
      elements := bodyChildren;
    }
  }

  /** Every element some selector finds is among the targets, once. */
  lemma TargetsCoverFound<E>(query: string -> seq<E>, s: int, x: E)
    requires 0 <= s < |Selectors| && x in query(Selectors[s])
    ensures x in Targets(query)
  {
    FoundContains(query, Selectors, s, x);
    DedupSameElements(FoundInOrder(query, Selectors));
  }

  lemma {:induction false} FoundContains<E>(query: string -> seq<E>, selectors: seq<string>, s: int, x: E)
    requires 0 <= s < |selectors| && x in query(selectors[s])
    ensures x in FoundInOrder(query, selectors)
    decreases |selectors|
  {
    var init := selectors[..|selectors| - 1];
    if s < |selectors| - 1 {
      assert init[s] == selectors[s];
      FoundContains(query, init, s, x);
    }
  }

  /* ── The entrance ── */

  /** The direction class of element i: top, left, right, bottom in turn */
  function DirectionClass(i: nat): (c: string)
    ensures c in DirectionClasses && c == DirectionClasses[i % 4]
  {
    DirectionClasses[i % 4]
  }

  /** Element i's classes after the effect: the animation classes removed, then
      its direction class added */
  function EntranceClasses(before: set<string>, i: nat): (after: set<string>)
    ensures DirectionClass(i) in after && EnterIn !in after
    ensures forall d :: d in DirectionClasses && d in after ==> d == DirectionClass(i)
    ensures forall c :: c !in AnimationClasses ==> (c in after <==> c in before)
  {
    (before - AnimationClasses) + {DirectionClass(i)}
  }

  /** Consecutive elements enter from different directions, and the pattern repeats every four. */
  lemma DirectionsCycle(i: nat)
    ensures DirectionClass(i) != DirectionClass(i + 1)
    ensures DirectionClass(i + 4) == DirectionClass(i)
  {
  }

  /** What the effect does to one element */
  datatype Entrance<E> = Entrance(element: E, classes: set<string>, delayMs: int, enterInAtMs: int)

  /** The `forEach` over the targets: each element's classes and delay, and
      when its "enter-in" class is added. `classesOf` gives each element's
      classes before the effect. */
  method PlanEntrances<E>(elements: seq<E>, stagger: int, classesOf: E -> set<string>)
    returns (entrances: seq<Entrance<E>>)
    ensures |entrances| == |elements|
    ensures forall i :: 0 <= i < |elements| ==>
      && entrances[i].element == elements[i]
      && entrances[i].classes == EntranceClasses(classesOf(elements[i]), i)
      && entrances[i].delayMs == i * stagger
      && entrances[i].enterInAtMs == EnterInOffsetMs + i * stagger
  {
    entrances := [];
    var i := 0;
    while i < |elements|
      invariant 0 <= i <= |elements| && |entrances| == i
      invariant forall k :: 0 <= k < i ==>
        && entrances[k].element == elements[k]
        && entrances[k].classes == EntranceClasses(classesOf(elements[k]), k)
        && entrances[k].delayMs == k * stagger
        && entrances[k].enterInAtMs == EnterInOffsetMs + k * stagger
    {
      var el := elements[i];
      var classes := EntranceClasses(classesOf(el), i);
      entrances := entrances + [Entrance(el, classes, i * stagger, EnterInOffsetMs + i * stagger)];
      i := i + 1;
    }
  }

  /** When the inline delays are cleared */
  function CleanupAtMs(count: nat, stagger: int): int {
    count * stagger + CleanupSlackMs
  }

  /** With a non-negative stagger every element has entered before the delays are cleared. */
  lemma EntranceBeforeCleanup(count: nat, i: nat, stagger: int)
    requires i < count && stagger >= 0
    ensures EnterInOffsetMs + i * stagger < CleanupAtMs(count, stagger)
  {
    assert (count - i) * stagger >= 0;
    assert count * stagger == i * stagger + (count - i) * stagger;
  }

  datatype Animation<E> = Animation(entrances: seq<Entrance<E>>, cleanupAtMs: int)

  /** The effect. `stagger` is None when the prop is not given; nothing happens
      unless `trigger` is set. */
  method Animate<E(==)>(
    trigger: bool, stagger: Option<int>,
    query: string -> seq<E>, bodyChildren: seq<E>, classesOf: E -> set<string>)
    returns (animation: Option<Animation<E>>)
    ensures !trigger ==> animation.None?
    ensures trigger ==> animation.Some?
    ensures animation.Some? ==>
      var elements := if Targets(query) != [] then Targets(query) else bodyChildren;
      var step := if stagger.Some? then stagger.value else DefaultStagger;
      && |animation.value.entrances| == |elements|
      && animation.value.cleanupAtMs == CleanupAtMs(|elements|, step)
      && forall i :: 0 <= i < |elements| ==>
        && animation.value.entrances[i].element == elements[i]
        && animation.value.entrances[i].classes == EntranceClasses(classesOf(elements[i]), i)
        && animation.value.entrances[i].delayMs == i * step
        && animation.value.entrances[i].enterInAtMs == EnterInOffsetMs + i * step
  {
    if !trigger {
      return None;
    }
    var step := if stagger.Some? then stagger.value else DefaultStagger;
    var elements := CollectTargets(query, bodyChildren);
    var entrances := PlanEntrances(elements, step, classesOf);
    animation := Some(Animation(entrances, CleanupAtMs(|elements|, step)));
  }
}
