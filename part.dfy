/** The fragment engine of part.go: a closed tree of SQL text pieces and
    placeholders, its rendering to a text and an ordered parameter list, and
    the operators, wrappers and literal formatters built on top of it. */
module Parts {
  import opened Decimal
  import opened Values

  /** What a fragment renders to: SQL text and the values bound to its `?` marks. */
  datatype Rendering = Rendering(text: string, params: seq<Val>) {
    function Then(next: Rendering): Rendering {
      Rendering(text + next.text, params + next.params)
    }
  }

  /** Literal text with no parameters. */
  function Lit(s: string): Rendering {
    Rendering(s, [])
  }

  /** A fragment (Go's `builder` behind a non-zero `Part`). `Rendered` is
      partQuery, a subquery that has already been rendered. */
  datatype Frag =
    | Byte(c: char)
    | Str(s: string)
    | Placeholder(v: Val)
    | Seq(items: seq<Frag>)
    | Rendered(text: string, params: seq<Val>)
  {
    /** Part.append: extends the children when this is already a sequence,
        otherwise makes a sequence with this fragment first. */
    function Append(vs: seq<Frag>): (r: Frag)
      ensures r.Seq?
      ensures Render(r) == Render(this).Then(RenderAll(vs))
    {
      if Seq? then
        RenderAllConcat(items, vs);
        Seq(items + vs)
      else
        RenderAllConcat([this], vs);
        RenderAll1(this);
        Seq([this] + vs)
    }

    /** The shape shared by every binary operator: this, the operator text, v. */
    function Binary(op: string, v: Frag): (r: Frag)
      ensures Render(r) == Render(this).Then(Lit(op)).Then(Render(v))
    {
      RenderAll2(Str(op), v);
      ThenAssoc(Render(this), Lit(op), Render(v));
      Append([Str(op), v])
    }

    function As(alias: string): (r: Frag)
      ensures Render(r) == Render(this).Then(Lit(" AS " + alias))
    {
      RenderAll1(Str(" AS " + alias));
      Append([Str(" AS " + alias)])
    }

    function Eq(v: Frag): (r: Frag)
      ensures Render(r) == Render(this).Then(Lit(" = ")).Then(Render(v))
    {
      Binary(" = ", v)
    }

    function Ne(v: Frag): (r: Frag)
      ensures Render(r) == Render(this).Then(Lit(" != ")).Then(Render(v))
    {
      Binary(" != ", v)
    }

    function Lt(v: Frag): (r: Frag)
      ensures Render(r) == Render(this).Then(Lit(" < ")).Then(Render(v))
    {
      Binary(" < ", v)
    }

    function Lte(v: Frag): (r: Frag)
      ensures Render(r) == Render(this).Then(Lit(" <= ")).Then(Render(v))
    {
      Binary(" <= ", v)
    }

    function Gt(v: Frag): (r: Frag)
      ensures Render(r) == Render(this).Then(Lit(" > ")).Then(Render(v))
    {
      Binary(" > ", v)
    }

    function Gte(v: Frag): (r: Frag)
      ensures Render(r) == Render(this).Then(Lit(" >= ")).Then(Render(v))
    {
      Binary(" >= ", v)
    }

    function Add(v: Frag): (r: Frag)
      ensures Render(r) == Render(this).Then(Lit(" + ")).Then(Render(v))
    {
      Binary(" + ", v)
    }

    function Sub(v: Frag): (r: Frag)
      ensures Render(r) == Render(this).Then(Lit(" - ")).Then(Render(v))
    {
      Binary(" - ", v)
    }

    function Is(v: Frag): (r: Frag)
      ensures Render(r) == Render(this).Then(Lit(" IS ")).Then(Render(v))
    {
      Binary(" IS ", v)
    }

    function IsNot(v: Frag): (r: Frag)
      ensures Render(r) == Render(this).Then(Lit(" IS NOT ")).Then(Render(v))
    {
      Binary(" IS NOT ", v)
    }

    function And(v: Frag): (r: Frag)
      ensures Render(r) == Render(this).Then(Lit(" AND ")).Then(Render(v))
    {
      Binary(" AND ", v)
    }

    function Or(v: Frag): (r: Frag)
      ensures Render(r) == Render(this).Then(Lit(" OR ")).Then(Render(v))
    {
      Binary(" OR ", v)
    }

    function Xor(v: Frag): (r: Frag)
      ensures Render(r) == Render(this).Then(Lit(" XOR ")).Then(Render(v))
    {
      Binary(" XOR ", v)
    }

    /** Membership test: ` IN (NULL)` for no candidates, otherwise the
        candidates comma-separated in parentheses. */
    method In(vs: seq<Frag>) returns (r: Frag)
      ensures Render(r) == Render(this).Then(InList(vs))
    {
      if |vs| == 0 {
        r := Append([Str(" IN (NULL)")]);
        RenderAll1(Str(" IN (NULL)"));
        return;
      }
      r := Append([Str(" IN (")]);
      RenderAll1(Str(" IN ("));
      var head := r.items;
      var i := 0;
      while i < |vs|
        invariant 0 <= i <= |vs|
        invariant r == Seq(head + Intersperse(vs[..i], Str(", ")))
      {
        if i != 0 {
          r := r.Append([Str(", ")]);
        }
        r := r.Append([vs[i]]);
        IntersperseSnoc(vs[..i + 1], Str(", "));
        assert vs[..i + 1][..i] == vs[..i];
        i := i + 1;
      }
      assert vs[..i] == vs;
      r := r.Append([Byte(')')]);
      RenderAll1(Byte(')'));
      RenderAllConcat(head, Intersperse(vs, Str(", ")));
      IntersperseRendersJoined(vs, ", ");
      ThenAssoc(Render(this), Lit(" IN ("), Joined(vs, ", "));
      ThenAssoc(Render(this), Lit(" IN (").Then(Joined(vs, ", ")), Lit(")"));
    }

    method NotIn(vs: seq<Frag>) returns (r: Frag)
      ensures Render(r) == Render(this).Then(Lit(" NOT")).Then(InList(vs))
    {
      r := Append([Str(" NOT")]).In(vs);
    }
  }

  /** The text an IN test appends after its left operand. */
  function InList(vs: seq<Frag>): Rendering {
    if |vs| == 0 then Lit(" IN (NULL)") else Lit(" IN (").Then(Joined(vs, ", ")).Then(Lit(")"))
  }

  /** Rendering, the Build method of every fragment kind. */
  function Render(f: Frag): Rendering
    decreases f
  {
    match f
    case Byte(c) => Lit([c])
    case Str(s) => Lit(s)
    case Placeholder(v) => Rendering("?", [v])
    case Seq(items) => RenderAll(items)
    case Rendered(text, params) => Rendering(text, params)
  }

  /** parts.Build: the children's texts and parameter lists concatenated in order. */
  function RenderAll(fs: seq<Frag>): Rendering
    decreases fs
  {
    if fs == [] then Lit("") else Render(fs[0]).Then(RenderAll(fs[1..]))
  }

  /** parts.Build as the source writes it: one pass over the children,
      writing each child's text to the builder and appending its values. */
  method BuildAll(fs: seq<Frag>) returns (text: string, params: seq<Val>)
    ensures Rendering(text, params) == RenderAll(fs)
  {
    text, params := "", [];
    var i := 0;
    while i < |fs|
      invariant 0 <= i <= |fs|
      invariant Rendering(text, params) == RenderAll(fs[..i])
    {
      var r := Render(fs[i]);
      RenderAllConcat(fs[..i], [fs[i]]);
      RenderAll1(fs[i]);
      assert fs[..i + 1] == fs[..i] + [fs[i]];
      text, params := text + r.text, params + r.params;
      i := i + 1;
    }
    assert fs[..i] == fs;
  }

  /** Rendering a sequence is a homomorphism from concatenation of children. */
  lemma {:induction false} RenderAllConcat(a: seq<Frag>, b: seq<Frag>)
    ensures RenderAll(a + b) == RenderAll(a).Then(RenderAll(b))
    decreases |a|
  {
    if a == [] {
      assert a + b == b;
      EmptyThen(RenderAll(b));
    } else {
      assert (a + b)[1..] == a[1..] + b;
      RenderAllConcat(a[1..], b);
      ThenAssoc(Render(a[0]), RenderAll(a[1..]), RenderAll(b));
    }
  }

  /** The number of `?` marks in a text. */
  function Marks(s: string): nat
    decreases |s|
  {
    if s == [] then 0 else (if s[0] == '?' then 1 else 0) + Marks(s[1..])
  }

  lemma {:induction false} MarksConcat(a: string, b: string)
    ensures Marks(a + b) == Marks(a) + Marks(b)
    decreases |a|
  {
    if a != [] {
      assert (a + b)[1..] == a[1..] + b;
      MarksConcat(a[1..], b);
    } else {
      assert a + b == b;
    }
  }

  /** No literal of the tree contains `?`, and every pre-rendered subquery has
      one mark per value. */
  predicate MarkFree(f: Frag)
    decreases f
  {
    match f
    case Byte(c) => c != '?'
    case Str(s) => Marks(s) == 0
    case Placeholder(_) => true
    case Seq(items) => forall i :: 0 <= i < |items| ==> MarkFree(items[i])
    case Rendered(text, params) => Marks(text) == |params|
  }

  /** When no literal contains `?`, the rendered text has exactly one `?` per parameter. */
  lemma {:induction false} MarksMatchParams(f: Frag)
    requires MarkFree(f)
    ensures Marks(Render(f).text) == |Render(f).params|
    decreases f
  {
    match f
    case Byte(c) =>
      assert Render(f).text == [c];
      assert [c][1..] == [];
    case Str(_) =>
    case Placeholder(_) =>
      assert "?"[1..] == [];
    case Seq(items) =>
      MarksMatchParamsAll(items);
    case Rendered(_, _) =>
  }

  lemma {:induction false} MarksMatchParamsAll(fs: seq<Frag>)
    requires forall i :: 0 <= i < |fs| ==> MarkFree(fs[i])
    ensures Marks(RenderAll(fs).text) == |RenderAll(fs).params|
    decreases fs
  {
    if fs != [] {
      MarksMatchParams(fs[0]);
      MarksMatchParamsAll(fs[1..]);
      MarksConcat(Render(fs[0]).text, RenderAll(fs[1..]).text);
    }
  }

  /** Every child of a list is mark-free. */
  predicate AllMarkFree(fs: seq<Frag>) {
    forall i :: 0 <= i < |fs| ==> MarkFree(fs[i])
  }

  lemma AllMarkFreeConcat(a: seq<Frag>, b: seq<Frag>)
    requires AllMarkFree(a) && AllMarkFree(b)
    ensures AllMarkFree(a + b)
  {
    forall i | 0 <= i < |a + b|
      ensures MarkFree((a + b)[i])
    {
      if i >= |a| {
        assert (a + b)[i] == b[i - |a|];
      }
    }
  }

  /** A text without a `?` has no marks. */
  lemma {:induction false} NoMarks(s: string)
    requires '?' !in s
    ensures Marks(s) == 0
    decreases |s|
  {
    if s != [] {
      assert s[0] != '?';
      assert forall c :: c in s[1..] ==> c in s;
      NoMarks(s[1..]);
    }
  }

  /** The text with its k-th `?` replaced by `show` of the k-th value, as a
      driver binding the values in order reads it; a `?` with no value left
      stays as it is. */
  function Substitute(s: string, ps: seq<Val>, show: Val -> string): string
    decreases |s|
  {
    if s == [] then ""
    else if s[0] == '?' && ps != [] then show(ps[0]) + Substitute(s[1..], ps[1..], show)
    else [s[0]] + Substitute(s[1..], ps, show)
  }

  /** The text of a fragment with every value written where its placeholder
      stands: an independent reading of what the parameters mean. */
  function Inline(f: Frag, show: Val -> string): string
    decreases f
  {
    match f
    case Byte(c) => [c]
    case Str(s) => s
    case Placeholder(v) => show(v)
    case Seq(items) => InlineAll(items, show)
    case Rendered(text, params) => Substitute(text, params, show)
  }

  function InlineAll(fs: seq<Frag>, show: Val -> string): string
    decreases fs
  {
    if fs == [] then "" else Inline(fs[0], show) + InlineAll(fs[1..], show)
  }

  /** Substitution splits at a text boundary once the first part's marks use
      up exactly its values. */
  lemma {:induction false} SubstituteConcat(a: string, b: string, pa: seq<Val>, pb: seq<Val>, show: Val -> string)
    requires Marks(a) == |pa|
    ensures Substitute(a + b, pa + pb, show) == Substitute(a, pa, show) + Substitute(b, pb, show)
    decreases |a|
  {
    if a == [] {
      assert a + b == b && pa + pb == pb;
    } else {
      assert (a + b)[0] == a[0] && (a + b)[1..] == a[1..] + b;
      if a[0] == '?' {
        assert (pa + pb)[0] == pa[0] && (pa + pb)[1..] == pa[1..] + pb;
        SubstituteConcat(a[1..], b, pa[1..], pb, show);
      } else {
        SubstituteConcat(a[1..], b, pa, pb, show);
      }
    }
  }

  /** With no values, substitution changes nothing. */
  lemma {:induction false} SubstituteNothing(s: string, show: Val -> string)
    ensures Substitute(s, [], show) == s
    decreases |s|
  {
    if s != [] {
      SubstituteNothing(s[1..], show);
    }
  }

  /** Marks and values correspond in order: substituting the k-th value for
      the k-th `?` of the rendered text gives the text with every value
      written in place of its own placeholder. */
  lemma {:induction false} SubstituteRendersInline(f: Frag, show: Val -> string)
    requires MarkFree(f)
    ensures Substitute(Render(f).text, Render(f).params, show) == Inline(f, show)
    decreases f
  {
    match f
    case Byte(c) =>
      assert [c][1..] == [];
      SubstituteNothing([], show);
    case Str(t) =>
      SubstituteNothing(t, show);
    case Placeholder(v) =>
      assert "?"[1..] == [];
      assert [v][1..] == [];
    case Seq(items) =>
      SubstituteRendersInlineAll(items, show);
    case Rendered(_, _) =>
  }

  lemma {:induction false} SubstituteRendersInlineAll(fs: seq<Frag>, show: Val -> string)
    requires AllMarkFree(fs)
    ensures Substitute(RenderAll(fs).text, RenderAll(fs).params, show) == InlineAll(fs, show)
    decreases fs
  {
    if fs != [] {
      var head, rest := Render(fs[0]), RenderAll(fs[1..]);
      MarksMatchParams(fs[0]);
      SubstituteConcat(head.text, rest.text, head.params, rest.params, show);
      SubstituteRendersInline(fs[0], show);
      SubstituteRendersInlineAll(fs[1..], show);
    }
  }

  lemma EmptyThen(x: Rendering)
    ensures Lit("").Then(x) == x && x.Then(Lit("")) == x
  {
  }

  lemma ThenAssoc(x: Rendering, y: Rendering, z: Rendering)
    ensures x.Then(y).Then(z) == x.Then(y.Then(z))
  {
  }

  /** Rendering of sequence literals of one to seven children. */
  lemma RenderAll1(a: Frag)
    ensures RenderAll([a]) == Render(a)
  {
  }

  lemma RenderAll2(a: Frag, b: Frag)
    ensures RenderAll([a, b]) == Render(a).Then(Render(b))
  {
    assert [a, b][1..] == [b];
    RenderAll1(b);
  }

  lemma RenderAll3(a: Frag, b: Frag, c: Frag)
    ensures RenderAll([a, b, c]) == Render(a).Then(Render(b)).Then(Render(c))
  {
    assert [a, b, c] == [a, b] + [c];
    RenderAllConcat([a, b], [c]);
    RenderAll2(a, b);
    RenderAll1(c);
  }

  lemma RenderAll4(a: Frag, b: Frag, c: Frag, d: Frag)
    ensures RenderAll([a, b, c, d]) == Render(a).Then(Render(b)).Then(Render(c)).Then(Render(d))
  {
    assert [a, b, c, d] == [a, b, c] + [d];
    RenderAllConcat([a, b, c], [d]);
    RenderAll3(a, b, c);
    RenderAll1(d);
  }

  lemma RenderAll5(a: Frag, b: Frag, c: Frag, d: Frag, e: Frag)
    ensures RenderAll([a, b, c, d, e]) == Render(a).Then(Render(b)).Then(Render(c)).Then(Render(d)).Then(Render(e))
  {
    assert [a, b, c, d, e] == [a, b, c, d] + [e];
    RenderAllConcat([a, b, c, d], [e]);
    RenderAll4(a, b, c, d);
    RenderAll1(e);
  }

  lemma RenderAll6(a: Frag, b: Frag, c: Frag, d: Frag, e: Frag, f: Frag)
    ensures RenderAll([a, b, c, d, e, f])
      == Render(a).Then(Render(b)).Then(Render(c)).Then(Render(d)).Then(Render(e)).Then(Render(f))
  {
    assert [a, b, c, d, e, f] == [a, b, c, d, e] + [f];
    RenderAllConcat([a, b, c, d, e], [f]);
    RenderAll5(a, b, c, d, e);
    RenderAll1(f);
  }

  lemma RenderAll7(a: Frag, b: Frag, c: Frag, d: Frag, e: Frag, f: Frag, g: Frag)
    ensures RenderAll([a, b, c, d, e, f, g])
      == Render(a).Then(Render(b)).Then(Render(c)).Then(Render(d)).Then(Render(e)).Then(Render(f)).Then(Render(g))
  {
    assert [a, b, c, d, e, f, g] == [a, b, c, d, e, f] + [g];
    RenderAllConcat([a, b, c, d, e, f], [g]);
    RenderAll6(a, b, c, d, e, f);
    RenderAll1(g);
  }

  /** The list `vs` with `sep` between consecutive items, built from the back
      as the source's loops build it. */
  function Intersperse(vs: seq<Frag>, sep: Frag): seq<Frag>
    decreases |vs|
  {
    if |vs| <= 1 then vs else Intersperse(vs[..|vs| - 1], sep) + [sep, vs[|vs| - 1]]
  }

  lemma IntersperseSnoc(vs: seq<Frag>, sep: Frag)
    requires |vs| >= 1
    ensures Intersperse(vs, sep) == Intersperse(vs[..|vs| - 1], sep)
      + (if |vs| > 1 then [sep] else []) + [vs[|vs| - 1]]
  {
  }

  /** n items give 2n - 1 children: item j at position 2j, in order, and the
      separator at every odd position between them, so n - 1 separators. */
  lemma {:induction false} IntersperseShape(vs: seq<Frag>, sep: Frag)
    ensures |Intersperse(vs, sep)| == if vs == [] then 0 else 2 * |vs| - 1
    ensures forall j :: 0 <= j < |vs| ==> Intersperse(vs, sep)[2 * j] == vs[j]
    ensures forall j :: 0 <= j < |vs| - 1 ==> Intersperse(vs, sep)[2 * j + 1] == sep
  {
    IntersperseLength(vs, sep);
    forall j | 0 <= j < |vs|
      ensures Intersperse(vs, sep)[2 * j] == vs[j]
    {
      IntersperseItem(vs, sep, j);
    }
    forall j | 0 <= j < |vs| - 1
      ensures Intersperse(vs, sep)[2 * j + 1] == sep
    {
      IntersperseSeparator(vs, sep, j);
    }
  }

  /** Interspersing mark-free items with a mark-free separator keeps every
      child mark-free. */
  lemma {:induction false} IntersperseMarkFree(vs: seq<Frag>, sep: Frag)
    requires AllMarkFree(vs) && MarkFree(sep)
    ensures AllMarkFree(Intersperse(vs, sep))
    decreases |vs|
  {
    if |vs| > 1 {
      var init := vs[..|vs| - 1];
      assert AllMarkFree(init);
      IntersperseMarkFree(init, sep);
      assert MarkFree(vs[|vs| - 1]);
    }
  }

  lemma {:induction false} IntersperseLength(vs: seq<Frag>, sep: Frag)
    ensures |Intersperse(vs, sep)| == if vs == [] then 0 else 2 * |vs| - 1
    decreases |vs|
  {
    if |vs| > 1 {
      IntersperseLength(vs[..|vs| - 1], sep);
    }
  }

  lemma {:induction false} IntersperseItem(vs: seq<Frag>, sep: Frag, j: nat)
    requires j < |vs|
    ensures 2 * j < |Intersperse(vs, sep)| && Intersperse(vs, sep)[2 * j] == vs[j]
    decreases |vs|
  {
    IntersperseLength(vs, sep);
    if |vs| > 1 {
      var init := vs[..|vs| - 1];
      IntersperseLength(init, sep);
      if j < |vs| - 1 {
        IntersperseItem(init, sep, j);
      }
    }
  }

  lemma {:induction false} IntersperseSeparator(vs: seq<Frag>, sep: Frag, j: nat)
    requires j + 1 < |vs|
    ensures 2 * j + 1 < |Intersperse(vs, sep)| && Intersperse(vs, sep)[2 * j + 1] == sep
    decreases |vs|
  {
    IntersperseLength(vs, sep);
    var init := vs[..|vs| - 1];
    IntersperseLength(init, sep);
    if j + 2 < |vs| {
      IntersperseSeparator(init, sep, j);
    }
  }

  /** The renderings of `vs` joined by `sep`, defined from the front and on
      renderings rather than fragments: the reference for every joined list. */
  function Joined(vs: seq<Frag>, sep: string): Rendering
    decreases |vs|
  {
    if vs == [] then Lit("")
    else if |vs| == 1 then Render(vs[0])
    else Render(vs[0]).Then(Lit(sep)).Then(Joined(vs[1..], sep))
  }

  lemma {:induction false} JoinedSnoc(vs: seq<Frag>, sep: string)
    requires |vs| >= 2
    ensures Joined(vs, sep) == Joined(vs[..|vs| - 1], sep).Then(Lit(sep)).Then(Render(vs[|vs| - 1]))
    decreases |vs|
  {
    if |vs| > 2 {
      JoinedSnoc(vs[1..], sep);
      assert vs[1..][..|vs| - 2] == vs[..|vs| - 1][1..];
    }
  }

  /** Separators carry no parameters: a joined list has exactly its items'
      parameters, in item order. */
  lemma {:induction false} JoinedParams(vs: seq<Frag>, sep: string)
    ensures Joined(vs, sep).params == RenderAll(vs).params
    decreases |vs|
  {
    if |vs| == 1 {
      assert vs[1..] == [];
    } else if |vs| > 1 {
      JoinedParams(vs[1..], sep);
    }
  }

  /** Rendering the interspersed children gives exactly the joined renderings. */
  lemma {:induction false} IntersperseRendersJoined(vs: seq<Frag>, sep: string)
    ensures RenderAll(Intersperse(vs, Str(sep))) == Joined(vs, sep)
    decreases |vs|
  {
    if |vs| == 1 {
      assert RenderAll([vs[0]]) == Render(vs[0]).Then(RenderAll([]));
    } else if |vs| > 1 {
      var init := vs[..|vs| - 1];
      IntersperseRendersJoined(init, sep);
      RenderAllConcat(Intersperse(init, Str(sep)), [Str(sep), vs[|vs| - 1]]);
      RenderAllConcat([Str(sep)], [vs[|vs| - 1]]);
      JoinedSnoc(vs, sep);
    }
  }

  /** An opening child, the items joined by `sep`, a closing child. */
  lemma Bracketed(open: Frag, vs: seq<Frag>, sep: string, close: Frag)
    ensures RenderAll([open] + Intersperse(vs, Str(sep)) + [close])
      == Render(open).Then(Joined(vs, sep)).Then(Render(close))
  {
    IntersperseRendersJoined(vs, sep);
    RenderAll1(open);
    RenderAll1(close);
    RenderAllConcat([open], Intersperse(vs, Str(sep)));
    RenderAllConcat([open] + Intersperse(vs, Str(sep)), [close]);
  }

  /** The children `acc` followed by `vs` interspersed with `sep`, appended one
      at a time (the loop of List, Concat, TableFields and ValueBuilder.Append). */
  method AppendJoined(acc: seq<Frag>, vs: seq<Frag>, sep: Frag) returns (r: seq<Frag>)
    ensures r == acc + Intersperse(vs, sep)
  {
    r := acc;
    var i := 0;
    while i < |vs|
      invariant 0 <= i <= |vs|
      invariant r == acc + Intersperse(vs[..i], sep)
    {
      if i != 0 {
        r := r + [sep];
      }
      r := r + [vs[i]];
      IntersperseSnoc(vs[..i + 1], sep);
      assert vs[..i + 1][..i] == vs[..i];
      i := i + 1;
    }
    assert vs[..i] == vs;
  }

  /** Free-function forms: a fresh three-child sequence. */
  function And(l: Frag, r: Frag): (p: Frag)
    ensures Render(p) == Render(l).Then(Lit(" AND ")).Then(Render(r))
  {
    RenderAll3(l, Str(" AND "), r);
    Seq([l, Str(" AND "), r])
  }

  function Or(l: Frag, r: Frag): (p: Frag)
    ensures Render(p) == Render(l).Then(Lit(" OR ")).Then(Render(r))
  {
    RenderAll3(l, Str(" OR "), r);
    Seq([l, Str(" OR "), r])
  }

  function Xor(l: Frag, r: Frag): (p: Frag)
    ensures Render(p) == Render(l).Then(Lit(" XOR ")).Then(Render(r))
  {
    RenderAll3(l, Str(" XOR "), r);
    Seq([l, Str(" XOR "), r])
  }

  /** The free and method forms differ in shape (the method form flattens into
      an existing sequence) but render identically. */
  lemma FreeAndMethodFormsAgree(l: Frag, r: Frag)
    ensures Render(And(l, r)) == Render(l.And(r))
    ensures Render(Or(l, r)) == Render(l.Or(r))
    ensures Render(Xor(l, r)) == Render(l.Xor(r))
  {
  }

  /** List: the items comma-separated, nothing around them. */
  method List(vs: seq<Frag>) returns (p: Frag)
    ensures p == Seq(Intersperse(vs, Str(", ")))
    ensures Render(p) == Joined(vs, ", ")
  {
    var children := AppendJoined([], vs, Str(", "));
    p := Seq(children);
    IntersperseRendersJoined(vs, ", ");
  }

  function Cond(v: Frag): (p: Frag)
    ensures Render(p) == Lit("(").Then(Render(v)).Then(Lit(")"))
  {
    RenderAll3(Byte('('), v, Byte(')'));
    Seq([Byte('('), v, Byte(')')])
  }

  function Min(v: Frag): (p: Frag)
    ensures Render(p) == Lit("MIN(").Then(Render(v)).Then(Lit(")"))
  {
    RenderAll3(Str("MIN("), v, Byte(')'));
    Seq([Str("MIN("), v, Byte(')')])
  }

  function Max(v: Frag): (p: Frag)
    ensures Render(p) == Lit("MAX(").Then(Render(v)).Then(Lit(")"))
  {
    RenderAll3(Str("MAX("), v, Byte(')'));
    Seq([Str("MAX("), v, Byte(')')])
  }

  function Count(v: Frag): (p: Frag)
    ensures Render(p) == Lit("COUNT(").Then(Render(v)).Then(Lit(")"))
  {
    RenderAll3(Str("COUNT("), v, Byte(')'));
    Seq([Str("COUNT("), v, Byte(')')])
  }

  /** A two-decimal average, a fixed policy of the source. */
  function Average(v: Frag): (p: Frag)
    ensures Render(p) == Lit("CAST(AVG(").Then(Render(v)).Then(Lit(") AS DECIMAL(7,2))"))
  {
    RenderAll3(Str("CAST(AVG("), v, Str(") AS DECIMAL(7,2))"));
    Seq([Str("CAST(AVG("), v, Str(") AS DECIMAL(7,2))")])
  }

  function ToBase64(v: Frag): (p: Frag)
    ensures Render(p) == Lit("TO_BASE64(").Then(Render(v)).Then(Lit(")"))
  {
    RenderAll3(Str("TO_BASE64("), v, Byte(')'));
    Seq([Str("TO_BASE64("), v, Byte(')')])
  }

  function Distinct(v: Frag): (p: Frag)
    ensures Render(p) == Lit("DISTINCT(").Then(Render(v)).Then(Lit(")"))
  {
    RenderAll3(Str("DISTINCT("), v, Byte(')'));
    Seq([Str("DISTINCT("), v, Byte(')')])
  }

  function JsonExtract(v: Frag, cmd: Frag): (p: Frag)
    ensures Render(p) == Lit("JSON_EXTRACT(").Then(Render(v)).Then(Lit(", ")).Then(Render(cmd)).Then(Lit(")"))
  {
    RenderAll5(Str("JSON_EXTRACT("), v, Str(", "), cmd, Byte(')'));
    Seq([Str("JSON_EXTRACT("), v, Str(", "), cmd, Byte(')')])
  }

  function If(cond: Frag, def: Frag, v: Frag): (p: Frag)
    ensures Render(p) == Lit("IF(").Then(Render(cond)).Then(Lit(", ")).Then(Render(def))
      .Then(Lit(", ")).Then(Render(v)).Then(Lit(")"))
  {
    RenderAll7(Str("IF("), cond, Str(", "), def, Str(", "), v, Byte(')'));
    Seq([Str("IF("), cond, Str(", "), def, Str(", "), v, Byte(')')])
  }

  function Case(cond: Frag, thenPart: Frag, els: Frag): (p: Frag)
    ensures Render(p) == Lit("CASE WHEN ").Then(Render(cond)).Then(Lit(" THEN ")).Then(Render(thenPart))
      .Then(Lit(" ELSE ")).Then(Render(els)).Then(Lit(" END"))
  {
    RenderAll7(Str("CASE WHEN "), cond, Str(" THEN "), thenPart, Str(" ELSE "), els, Str(" END"));
    Seq([Str("CASE WHEN "), cond, Str(" THEN "), thenPart, Str(" ELSE "), els, Str(" END")])
  }

  /** CONCAT of the items comma-separated; `CONCAT()` for none. */
  method Concat(vs: seq<Frag>) returns (p: Frag)
    ensures Render(p) == Lit("CONCAT(").Then(Joined(vs, ", ")).Then(Lit(")"))
  {
    var children := AppendJoined([Str("CONCAT(")], vs, Str(", "));
    children := children + [Byte(')')];
    p := Seq(children);
    Bracketed(Str("CONCAT("), vs, ", ", Byte(')'));
  }

  /** The table name followed by its comma-separated columns in parentheses. */
  method TableFields(name: string, fields: seq<Frag>) returns (p: Frag)
    ensures Render(p) == Lit(name + "(").Then(Joined(fields, ", ")).Then(Lit(")"))
  {
    var children := AppendJoined([Str(name), Byte('(')], fields, Str(", "));
    children := children + [Byte(')')];
    p := Seq(children);
    IntersperseRendersJoined(fields, ", ");
    RenderAll2(Str(name), Byte('('));
    RenderAll1(Byte(')'));
    RenderAllConcat([Str(name), Byte('(')], Intersperse(fields, Str(", ")));
    RenderAllConcat([Str(name), Byte('(')] + Intersperse(fields, Str(", ")), [Byte(')')]);
  }

  /** The shared constant parts: `*`, `NULL`, `TRUE` and `FALSE`, each a
      literal with no parameter. */
  function All(): (p: Frag)
    ensures Render(p) == Lit("*") && MarkFree(p)
  {
    Str("*")
  }

  function Null(): (p: Frag)
    ensures Render(p) == Lit("NULL") && MarkFree(p)
  {
    Str("NULL")
  }

  function True(): (p: Frag)
    ensures Render(p) == Lit("TRUE") && MarkFree(p)
  {
    Str("TRUE")
  }

  function False(): (p: Frag)
    ensures Render(p) == Lit("FALSE") && MarkFree(p)
  {
    Str("FALSE")
  }

  /** Why Value refused its argument: Go panics with this message. */
  datatype Outcome = Built(part: Frag) | Panic(message: string)

  /** A string literal: the text between single quotes, with no escaping. */
  function ValueString(v: string): (p: Frag)
    ensures var t := Render(p).text;
      |t| == |v| + 2 && t[0] == '\'' && t[|t| - 1] == '\'' && t[1..|t| - 1] == v
    ensures Render(p).params == []
  {
    Str("'" + v + "'")
  }

  /** An integer literal: its Itoa text, the canonical decimal text of the
      value (sign only when negative, no leading zero). */
  function ValueInt(v: int): (p: Frag)
    ensures IsIntText(Render(p).text) && ParseInt(Render(p).text) == v
    ensures |Render(p).text| >= 1 && (Render(p).text[0] == '-' <==> v < 0)
    ensures CanonicalInt(Render(p).text)
    ensures Render(p).params == []
  {
    IntToDecimalRoundTrip(v);
    Str(IntToDecimal(v))
  }

  /** A timestamp literal: 'YYYY-MM-DD HH:MM:SS' in single quotes. */
  function ValueTime(v: Time): (p: Frag)
    ensures var t := Render(p).text;
      |t| >= 2 && t[0] == '\'' && t[|t| - 1] == '\''
      && (FitsLayout(v) ==> |t| == 21 && TimeLayout(t[1..20], v))
    ensures Render(p).params == []
  {
    var s := FormatTime(v);
    assert ("'" + s + "'")[1..|s| + 1] == s;
    Str("'" + s + "'")
  }

  function ValueBool(v: bool): (p: Frag)
    ensures Render(p) == Lit(if v then "TRUE" else "FALSE")
  {
    if v then True() else False()
  }

  /** Dispatch on the value's kind; every other kind is refused. */
  function Value(v: Val): (r: Outcome)
    ensures r.Panic? <==> v.Other?
    ensures r.Panic? ==> r.message == "invalid value type " + v.typeName
    ensures v.VString? ==> r == Built(ValueString(v.s))
    ensures v.VInt? ==> r == Built(ValueInt(v.i))
    ensures v.VTime? ==> r == Built(ValueTime(v.t))
    ensures v.VBool? ==> r == Built(ValueBool(v.b))
  {
    match v
    case VString(s) => Built(ValueString(s))
    case VInt(i) => Built(ValueInt(i))
    case VTime(t) => Built(ValueTime(t))
    case VBool(b) => Built(ValueBool(b))
    case Other(name) => Panic("invalid value type " + name)
  }

  /** Table, Field and Alias all render the given name verbatim. */
  function Table(name: string): (p: Frag)
    ensures Render(p) == Lit(name)
  {
    Str(name)
  }

  function Field(field: string): (p: Frag)
    ensures Render(p) == Lit(field)
  {
    Str(field)
  }

  function Alias(alias: string): (p: Frag)
    ensures Render(p) == Lit(alias)
  {
    Str(alias)
  }

  function FieldNp(np: string, field: string): (p: Frag)
    ensures Render(p) == Lit(np + "." + field)
  {
    RenderAll3(Str(np), Byte('.'), Str(field));
    Seq([Str(np), Byte('.'), Str(field)])
  }

  /** A single placeholder: the text `?` and exactly its one value. */
  function Param(v: Val): (p: Frag)
    ensures Render(p) == Rendering("?", [v])
  {
    Placeholder(v)
  }

  function ParamBool(v: bool): (p: Frag)
    ensures Render(p) == Rendering("?", [VBool(v)])
  {
    Placeholder(VBool(v))
  }

  function ParamInt(v: int): (p: Frag)
    ensures Render(p) == Rendering("?", [VInt(v)])
  {
    Placeholder(VInt(v))
  }

  function ParamString(v: string): (p: Frag)
    ensures Render(p) == Rendering("?", [VString(v)])
  {
    Placeholder(VString(v))
  }

  method ParamBools(vs: seq<bool>) returns (ps: seq<Frag>)
    ensures |ps| == |vs|
    ensures forall i :: 0 <= i < |vs| ==> ps[i] == ParamBool(vs[i])
  {
    ps := [];
    for i := 0 to |vs|
      invariant |ps| == i
      invariant forall j :: 0 <= j < i ==> ps[j] == ParamBool(vs[j])
    {
      ps := ps + [ParamBool(vs[i])];
    }
  }

  method ParamInts(vs: seq<int>) returns (ps: seq<Frag>)
    ensures |ps| == |vs|
    ensures forall i :: 0 <= i < |vs| ==> ps[i] == ParamInt(vs[i])
  {
    ps := [];
    for i := 0 to |vs|
      invariant |ps| == i
      invariant forall j :: 0 <= j < i ==> ps[j] == ParamInt(vs[j])
    {
      ps := ps + [ParamInt(vs[i])];
    }
  }

  method ParamStrings(vs: seq<string>) returns (ps: seq<Frag>)
    ensures |ps| == |vs|
    ensures forall i :: 0 <= i < |vs| ==> ps[i] == ParamString(vs[i])
  {
    ps := [];
    for i := 0 to |vs|
      invariant |ps| == i
      invariant forall j :: 0 <= j < i ==> ps[j] == ParamString(vs[j])
    {
      ps := ps + [ParamString(vs[i])];
    }
  }

  method Params(vs: seq<Val>) returns (ps: seq<Frag>)
    ensures |ps| == |vs|
    ensures forall i :: 0 <= i < |vs| ==> ps[i] == Param(vs[i])
  {
    ps := [];
    for i := 0 to |vs|
      invariant |ps| == i
      invariant forall j :: 0 <= j < i ==> ps[j] == Param(vs[j])
    {
      ps := ps + [Param(vs[i])];
    }
  }

  /** Comparison times at or before the epoch are replaced by `now`. */
  function OrNow(t: Time, now: Time): Time {
    if t.unix <= 0 then now else t
  }

  /** True when either live bound is NULL or the two intervals intersect;
      `now` is the clock reading the source takes itself. */
  function DateOverlaps(startA: Frag, endA: Frag, startB: Time, endB: Time, now: Time): (p: Frag)
    ensures var s, e := Render(startA).text, Render(endA).text;
      Render(p).text == "(" + s + " IS NULL OR " + e + " IS NULL OR ? <= " + e + " AND ? >= " + s + ")"
    ensures var s, e := Render(startA).params, Render(endA).params;
      Render(p).params == s + e + [VTime(OrNow(startB, now))] + e + [VTime(OrNow(endB, now))] + s
  {
    var sB, eB := OrNow(startB, now), OrNow(endB, now);
    var live := Or(startA.Is(Null()), endA.Is(Null()));
    var cmp := And(Param(VTime(sB)).Lte(endA), Param(VTime(eB)).Gte(startA));
    OverlapText(Render(startA).text, Render(endA).text);
    OverlapParams(Render(startA).params, Render(endA).params, VTime(sB), VTime(eB));
    Cond(Or(live, cmp))
  }

  lemma OverlapText(s: string, e: string)
    ensures "(" + (s + " IS " + "NULL" + " OR " + (e + " IS " + "NULL") + " OR " + ("?" + " <= " + e + " AND " + ("?" + " >= " + s))) + ")"
      == "(" + s + " IS NULL OR " + e + " IS NULL OR ? <= " + e + " AND ? >= " + s + ")"
  {
  }

  lemma OverlapParams(s: seq<Val>, e: seq<Val>, sB: Val, eB: Val)
    ensures [] + (s + [] + [] + [] + (e + [] + []) + [] + ([sB] + [] + e + [] + ([eB] + [] + s))) + []
      == s + e + [sB] + e + [eB] + s
  {
  }

  /** An incremental VALUES list, appended to in place. */
  class ValueBuilder {
    var parts: seq<Frag>
    /** The parenthesised rows appended so far. */
    ghost var rows: seq<seq<Frag>>

    ghost predicate Valid()
      reads this
    {
      Render(Seq(parts)) == Lit("VALUES ").Then(RowsText(rows)) && |parts| >= 1 && parts[0] == Str("VALUES ")
      && (|parts| > 1 <==> rows != [])
    }

    constructor ()
      ensures Valid() && parts == [Str("VALUES ")] && rows == []
    {
      parts := [Str("VALUES ")];
      rows := [];
    }

    /** Appends one parenthesised group, after `, ` unless it is the first. */
    method Append(values: seq<Frag>)
      requires Valid()
      modifies this
      ensures Valid() && rows == old(rows) + [values]
      ensures parts == old(parts) + (if |old(parts)| > 1 then [Str(", ")] else [])
        + [Byte('(')] + Intersperse(values, Str(", ")) + [Byte(')')]
    {
      var lead := if |parts| > 1 then [Str(", ")] else [];
      var next := AppendJoined(parts + lead + [Byte('(')], values, Str(", "));
      next := next + [Byte(')')];
      ghost var group := [Byte('(')] + Intersperse(values, Str(", ")) + [Byte(')')];
      assert next == parts + lead + group;
      Bracketed(Byte('('), values, ", ", Byte(')'));
      assert RenderAll(lead) == Lit(if rows == [] then "" else ", ") by {
        if lead != [] { RenderAll1(Str(", ")); }
      }
      RenderAllConcat(parts, lead);
      RenderAllConcat(parts + lead, group);
      RowsTextSnoc(rows, values);
      ghost var sep := Lit(if rows == [] then "" else ", ");
      ThenAssoc(Lit("VALUES "), RowsText(rows), sep);
      ThenAssoc(Lit("VALUES "), RowsText(rows).Then(sep), RowText(values));
      parts := next;
      rows := rows + [values];
    }

    function Part(): (p: Frag)
      reads this
      requires Valid()
      ensures Render(p) == Lit("VALUES ").Then(RowsText(rows))
    {
      Seq(parts)
    }
  }

  /** One VALUES row: the values comma-separated in parentheses. */
  function RowText(row: seq<Frag>): Rendering {
    Lit("(").Then(Joined(row, ", ")).Then(Lit(")"))
  }

  /** The rows comma-separated, each in parentheses. */
  function RowsText(rows: seq<seq<Frag>>): Rendering
    decreases |rows|
  {
    if rows == [] then Lit("")
    else if |rows| == 1 then RowText(rows[0])
    else RowsText(rows[..|rows| - 1]).Then(Lit(", ")).Then(RowText(rows[|rows| - 1]))
  }

  lemma RowsTextSnoc(rows: seq<seq<Frag>>, row: seq<Frag>)
    ensures RowsText(rows + [row]) == RowsText(rows).Then(Lit(if rows == [] then "" else ", ")).Then(RowText(row))
  {
  }
}
