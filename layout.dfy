/**
 * Templates as layouts. A template literal is cut into sections; a section is
 * a function from the subject of the template (the client's profile, or the
 * whole client record) and the generation time to its stretch of text. A
 * layout lists the sections in output order and renders as their
 * concatenation.
 */
module Layout {
  import opened Text

  datatype Sections<!X> = End | Then(section: (X, string) -> string, rest: Sections<X>)

  function Count<X>(layout: Sections<X>): nat {
    match layout
    case End => 0
    case Then(_, rest) => 1 + Count(rest)
  }

  /** Section k of the layout, counting from 0. */
  function At<X>(layout: Sections<X>, k: nat): (X, string) -> string
    requires k < Count(layout)
  {
    if k == 0 then layout.section else At(layout.rest, k - 1)
  }

  /** The sections from k on. */
  function From<X>(layout: Sections<X>, k: nat): Sections<X>
    requires k <= Count(layout)
  {
    if k == 0 then layout else From(layout.rest, k - 1)
  }

  function Render<X>(layout: Sections<X>, x: X, stamp: string): string {
    match layout
    case End => ""
    case Then(section, rest) => section(x, stamp) + Render(rest, x, stamp)
  }

  /** Every section appears in the rendering. */
  lemma {:induction false} RenderShows<X>(layout: Sections<X>, x: X, stamp: string, k: nat)
    requires k < Count(layout)
    ensures Contains(Render(layout, x, stamp), At(layout, k)(x, stamp))
  {
    if k == 0 {
      ContainsPrefix(layout.section(x, stamp), Render(layout.rest, x, stamp));
    } else {
      RenderShows(layout.rest, x, stamp, k - 1);
      ContainsSuffix(layout.section(x, stamp), Render(layout.rest, x, stamp));
      ContainsTrans(Render(layout, x, stamp), Render(layout.rest, x, stamp), At(layout, k)(x, stamp));
    }
  }

  /** The rendering of the sections from k on is a suffix of the whole. */
  lemma {:induction false} RenderEndsWith<X>(layout: Sections<X>, x: X, stamp: string, k: nat)
    requires k <= Count(layout)
    ensures EndsWith(Render(layout, x, stamp), Render(From(layout, k), x, stamp))
  {
    if k == 0 {
      assert Render(layout, x, stamp)[|Render(layout, x, stamp)| - |Render(layout, x, stamp)|..] == Render(layout, x, stamp);
    } else {
      RenderEndsWith(layout.rest, x, stamp, k - 1);
      EndsWithSuffix(layout.section(x, stamp), Render(layout.rest, x, stamp));
      EndsWithTrans(Render(layout, x, stamp), Render(layout.rest, x, stamp), Render(From(layout, k), x, stamp));
    }
  }

  /** The rendering closes with the last section. */
  lemma {:induction false} RenderLast<X>(layout: Sections<X>, x: X, stamp: string)
    requires Count(layout) > 0
    ensures EndsWith(Render(layout, x, stamp), At(layout, Count(layout) - 1)(x, stamp))
  {
    if Count(layout) == 1 {
      assert Render(layout, x, stamp) == layout.section(x, stamp);
    } else {
      RenderLast(layout.rest, x, stamp);
      EndsWithSuffix(layout.section(x, stamp), Render(layout.rest, x, stamp));
      EndsWithTrans(Render(layout, x, stamp), Render(layout.rest, x, stamp), At(layout, Count(layout) - 1)(x, stamp));
    }
  }

  /** The sections from k on render as section k followed by the sections after it. */
  lemma RenderFrom<X>(layout: Sections<X>, x: X, stamp: string, k: nat)
    requires k < Count(layout)
    ensures Render(From(layout, k), x, stamp) == At(layout, k)(x, stamp) + Render(From(layout, k + 1), x, stamp)
    ensures Contains(Render(layout, x, stamp), Render(From(layout, k), x, stamp))
  {
    FromThen(layout, k);
    RenderEndsWith(layout, x, stamp, k);
    EndsWithContains(Render(layout, x, stamp), Render(From(layout, k), x, stamp));
  }

  /** Sections k and k + 1 render side by side. */
  lemma RenderConsecutive<X>(layout: Sections<X>, x: X, stamp: string, k: nat)
    requires k + 1 < Count(layout)
    ensures Contains(Render(layout, x, stamp), At(layout, k)(x, stamp) + At(layout, k + 1)(x, stamp))
  {
    RenderFrom(layout, x, stamp, k);
    RenderFrom(layout, x, stamp, k + 1);
    var a, b, rest := At(layout, k)(x, stamp), At(layout, k + 1)(x, stamp), Render(From(layout, k + 2), x, stamp);
    assert Render(From(layout, k), x, stamp) == (a + b) + rest;
    ContainsPrefix(a + b, rest);
    ContainsTrans(Render(layout, x, stamp), Render(From(layout, k), x, stamp), a + b);
  }

  /** When section k + 1 renders empty, sections k and k + 2 render side by side. */
  lemma RenderAdjacent<X>(layout: Sections<X>, x: X, stamp: string, k: nat)
    requires k + 2 < Count(layout) && At(layout, k + 1)(x, stamp) == ""
    ensures Contains(Render(layout, x, stamp), At(layout, k)(x, stamp) + At(layout, k + 2)(x, stamp))
  {
    RenderFrom(layout, x, stamp, k);
    RenderFrom(layout, x, stamp, k + 1);
    RenderFrom(layout, x, stamp, k + 2);
    var a, b, rest := At(layout, k)(x, stamp), At(layout, k + 2)(x, stamp), Render(From(layout, k + 3), x, stamp);
    assert Render(From(layout, k), x, stamp) == (a + b) + rest;
    ContainsPrefix(a + b, rest);
    ContainsTrans(Render(layout, x, stamp), Render(From(layout, k), x, stamp), a + b);
  }

  lemma {:induction false} FromThen<X>(layout: Sections<X>, k: nat)
    requires k < Count(layout)
    ensures From(layout, k) == Then(At(layout, k), From(layout, k + 1))
  {
    if k > 0 {
      FromThen(layout.rest, k - 1);
    }
  }

  /** A layout of three or more sections renders as its first three sections and the rest. */
  lemma RenderOpening<X>(layout: Sections<X>, x: X, stamp: string)
    requires layout.Then? && layout.rest.Then? && layout.rest.rest.Then?
    ensures Render(layout, x, stamp) == layout.section(x, stamp) + (layout.rest.section(x, stamp) +
      (layout.rest.rest.section(x, stamp) + Render(layout.rest.rest.rest, x, stamp)))
  {
    assert Render(layout, x, stamp) == layout.section(x, stamp) + Render(layout.rest, x, stamp);
    assert Render(layout.rest, x, stamp) == layout.rest.section(x, stamp) + Render(layout.rest.rest, x, stamp);
  }
}
