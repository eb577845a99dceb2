/**
  The questionnaire tree (loaded once from JSON and never changed) and the
  two-level cursor `(current_section, current_subsection)` that walks it.
 */
module Questionnaire {

  /** One question: its prompt name, its options in order, and its select mode. */
  datatype Subsection = Subsection(name: string, options: seq<string>, isMultiSelect: bool)

  datatype Section = Section(name: string, subSections: seq<Subsection>)

  datatype Tree = Tree(sections: seq<Section>)

  /** The cursor is only ever used to index sections that have a subsection. */
  predicate WellFormed(t: Tree) {
    forall i :: 0 <= i < |t.sections| ==> |t.sections[i].subSections| > 0
  }

  datatype Cursor = Cursor(section: nat, subsection: nat)

  const Start := Cursor(0, 0)

  function End(t: Tree): Cursor {
    Cursor(|t.sections|, 0)
  }

  /** The cursor names an existing subsection. */
  predicate Addresses(t: Tree, c: Cursor) {
    c.section < |t.sections| && c.subsection < |t.sections[c.section].subSections|
  }

  /** The completion test of the conversation: the section index has run off the tree. */
  predicate Finished(t: Tree, c: Cursor) {
    c.section >= |t.sections|
  }

  /** The cursor invariant: on a subsection, or exactly one past the last one. */
  predicate InRange(t: Tree, c: Cursor) {
    Addresses(t, c) || c == End(t)
  }

  /** The number of subsections in the first `n` sections. */
  function Before(sections: seq<Section>, n: nat): nat
    requires n <= |sections|
  {
    if n == 0 then 0 else Before(sections, n - 1) + |sections[n - 1].subSections|
  }

  /** The number of questions in the tree. */
  function Total(t: Tree): nat {
    Before(t.sections, |t.sections|)
  }

  /** How many questions lie before the cursor in lexicographic order. */
  function Position(t: Tree, c: Cursor): nat
    requires c.section <= |t.sections|
  {
    Before(t.sections, c.section) + c.subsection
  }

  /**
    One step of the walk: the next subsection of the same section, or the
    first subsection of the next section.
   */
  function Advance(t: Tree, c: Cursor): (r: Cursor)
    requires Addresses(t, c)
    ensures (r.section == c.section && r.subsection == c.subsection + 1)
         || (r.section == c.section + 1 && r.subsection == 0)
    ensures r.section <= |t.sections|
    ensures Position(t, r) == Position(t, c) + 1
    ensures WellFormed(t) ==> InRange(t, r)
  {
    if c.subsection + 1 < |t.sections[c.section].subSections| then Cursor(c.section, c.subsection + 1)
    else Cursor(c.section + 1, 0)
  }

  lemma {:induction false} BeforeGrows(sections: seq<Section>, i: nat, j: nat)
    requires i < j <= |sections|
    ensures Before(sections, i) + |sections[i].subSections| <= Before(sections, j)
    decreases j - i
  {
    if j > i + 1 {
      BeforeGrows(sections, i, j - 1);
    }
  }

  /** Positions of in-range cursors run from 0 to Total, and only the end cursor has position Total. */
  lemma PositionRange(t: Tree, c: Cursor)
    requires WellFormed(t) && InRange(t, c)
    ensures Position(t, c) <= Total(t)
    ensures Position(t, c) == Total(t) <==> c == End(t)
  {
    if Addresses(t, c) {
      BeforeGrows(t.sections, c.section, |t.sections|);
    }
  }

  /** Two in-range cursors at the same position are the same cursor. */
  lemma PositionInjective(t: Tree, c: Cursor, d: Cursor)
    requires WellFormed(t) && InRange(t, c) && InRange(t, d)
    requires Position(t, c) == Position(t, d)
    ensures c == d
  {
    if c.section < d.section {
      BeforeGrows(t.sections, c.section, d.section);
    } else if d.section < c.section {
      BeforeGrows(t.sections, d.section, c.section);
    }
  }

  /** The subsections the conversation asks, in order, starting at `c`. */
  function Walk(t: Tree, c: Cursor): (w: seq<Cursor>)
    requires WellFormed(t) && InRange(t, c)
    ensures Position(t, c) + |w| == Total(t)
    ensures forall i :: 0 <= i < |w| ==> Addresses(t, w[i]) && Position(t, w[i]) == Position(t, c) + i
    decreases Total(t) - Position(t, c)
  {
    PositionRange(t, c);
    if Finished(t, c) then []
    else
      var next := Advance(t, c);
      PositionRange(t, next);
      [c] + Walk(t, next)
  }

  /** From the start, the walk asks every subsection of the tree exactly once. */
  lemma WalkAsksEverything(t: Tree, c: Cursor)
    requires WellFormed(t) && Addresses(t, c)
    ensures |Walk(t, Start)| == Total(t)
    ensures c in Walk(t, Start)
    ensures forall i, j :: 0 <= i < j < |Walk(t, Start)| ==> Walk(t, Start)[i] != Walk(t, Start)[j]
  {
    var w := Walk(t, Start);
    assert Start == End(t) || Addresses(t, Start);
    assert Position(t, Start) == 0;
    PositionRange(t, c);
    var k := Position(t, c);
    assert Addresses(t, w[k]) && Position(t, w[k]) == k;
    PositionInjective(t, c, w[k]);
  }
}
