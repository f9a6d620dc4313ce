/** The statement assembler of query.go: a mutable query holding one FROM
    fragment, ordered clause lists and a limit, and its rendering in the
    fixed clause order WITH, SELECT ... FROM, joins, WHERE, GROUP BY,
    ORDER BY, LIMIT. */
module Queries {
  import opened Decimal
  import opened Values
  import opened Parts

  /** OrderDirectionAsc and OrderDirectionDesc; the source's direction type is
      a plain integer, so any other value can be passed. */
  const Asc: int := 0
  const Desc: int := 1

  /** The query's fields as one value. `from` is None for a zero Part, the
      state of a query made by NewQuery before From is called. */
  datatype Clauses = Clauses(
    from: Option<Frag>,
    selects: seq<Frag>,
    joins: seq<Frag>,
    wheres: seq<Frag>,
    groupBys: seq<Frag>,
    orderBys: seq<Frag>,
    withs: seq<Frag>,
    limit: int)

  /** The children Build lays out, clause by clause, as query.go appends them. */
  function BuildParts(c: Clauses): seq<Frag>
    requires c.from.Some?
  {
    WithParts(c.withs)
    + [Str("SELECT ")]
    + Intersperse(c.selects, Str(", "))
    + [Str(" FROM ")]
    + [c.from.value]
    + JoinParts(c.joins)
    + ListParts(" WHERE ", c.wheres, " AND ")
    + ListParts(" GROUP BY ", c.groupBys, ", ")
    + ListParts(" ORDER BY ", c.orderBys, ", ")
    + LimitParts(c.limit)
  }

  function WithParts(ws: seq<Frag>): seq<Frag> {
    if ws == [] then [] else [Str("WITH ")] + Intersperse(ws, Str(", ")) + [Byte(' ')]
  }

  function JoinParts(js: seq<Frag>): seq<Frag>
    decreases |js|
  {
    if js == [] then [] else JoinParts(js[..|js| - 1]) + [Byte(' '), js[|js| - 1]]
  }

  function ListParts(keyword: string, vs: seq<Frag>, sep: string): seq<Frag> {
    if vs == [] then [] else [Str(keyword)] + Intersperse(vs, Str(sep))
  }

  function LimitParts(limit: int): seq<Frag> {
    if limit == 0 then [] else [Str(" LIMIT " + IntToDecimal(limit))]
  }

  /** The statement as it reads, clause by clause: the reference that Build
      is proved against. An empty clause contributes nothing, keyword included. */
  function Layout(c: Clauses): Rendering
    requires c.from.Some?
  {
    WithClause(c.withs)
      .Then(Lit("SELECT "))
      .Then(Joined(c.selects, ", "))
      .Then(Lit(" FROM "))
      .Then(Render(c.from.value))
      .Then(JoinsText(c.joins))
      .Then(Clause(" WHERE ", c.wheres, " AND "))
      .Then(Clause(" GROUP BY ", c.groupBys, ", "))
      .Then(Clause(" ORDER BY ", c.orderBys, ", "))
      .Then(LimitText(c.limit))
  }

  function WithClause(ws: seq<Frag>): Rendering {
    if ws == [] then Lit("") else Lit("WITH ").Then(Joined(ws, ", ")).Then(Lit(" "))
  }

  /** Each join preceded by one space. */
  function JoinsText(js: seq<Frag>): Rendering
    decreases |js|
  {
    if js == [] then Lit("") else Lit(" ").Then(Render(js[0])).Then(JoinsText(js[1..]))
  }

  function Clause(keyword: string, vs: seq<Frag>, sep: string): Rendering {
    if vs == [] then Lit("") else Lit(keyword).Then(Joined(vs, sep))
  }

  function LimitText(limit: int): Rendering {
    if limit == 0 then Lit("") else Lit(" LIMIT " + IntToDecimal(limit))
  }

  /** The children Build appends render to the clause-by-clause layout. */
  lemma BuildPartsRenderLayout(c: Clauses)
    requires c.from.Some?
    ensures RenderAll(BuildParts(c)) == Layout(c)
  {
    var p1, p2, p3, p4, p5 := WithParts(c.withs), [Str("SELECT ")], Intersperse(c.selects, Str(", ")), [Str(" FROM ")], [c.from.value];
    var p6, p7, p8 := JoinParts(c.joins), ListParts(" WHERE ", c.wheres, " AND "), ListParts(" GROUP BY ", c.groupBys, ", ");
    var p9, p10 := ListParts(" ORDER BY ", c.orderBys, ", "), LimitParts(c.limit);
    RenderAllConcat(p1, p2);
    RenderAllConcat(p1 + p2, p3);
    RenderAllConcat(p1 + p2 + p3, p4);
    RenderAllConcat(p1 + p2 + p3 + p4, p5);
    RenderAllConcat(p1 + p2 + p3 + p4 + p5, p6);
    RenderAllConcat(p1 + p2 + p3 + p4 + p5 + p6, p7);
    RenderAllConcat(p1 + p2 + p3 + p4 + p5 + p6 + p7, p8);
    RenderAllConcat(p1 + p2 + p3 + p4 + p5 + p6 + p7 + p8, p9);
    RenderAllConcat(p1 + p2 + p3 + p4 + p5 + p6 + p7 + p8 + p9, p10);
    if c.withs != [] {
      Bracketed(Str("WITH "), c.withs, ", ", Byte(' '));
    }
    RenderAll1(Str("SELECT "));
    IntersperseRendersJoined(c.selects, ", ");
    RenderAll1(Str(" FROM "));
    RenderAll1(c.from.value);
    JoinPartsRenderJoinsText(c.joins);
    ListPartsRenderClause(" WHERE ", c.wheres, " AND ");
    ListPartsRenderClause(" GROUP BY ", c.groupBys, ", ");
    ListPartsRenderClause(" ORDER BY ", c.orderBys, ", ");
    if c.limit != 0 {
      RenderAll1(Str(" LIMIT " + IntToDecimal(c.limit)));
    }
  }

  lemma ListPartsRenderClause(keyword: string, vs: seq<Frag>, sep: string)
    ensures RenderAll(ListParts(keyword, vs, sep)) == Clause(keyword, vs, sep)
  {
    if vs != [] {
      IntersperseRendersJoined(vs, sep);
      RenderAll1(Str(keyword));
      RenderAllConcat([Str(keyword)], Intersperse(vs, Str(sep)));
    }
  }

  lemma {:induction false} JoinsTextSnoc(js: seq<Frag>)
    requires js != []
    ensures JoinsText(js) == JoinsText(js[..|js| - 1]).Then(Lit(" ")).Then(Render(js[|js| - 1]))
    decreases |js|
  {
    if |js| == 1 {
      EmptyThen(Lit(" ").Then(Render(js[0])));
      assert js[1..] == [];
    } else {
      JoinsTextSnoc(js[1..]);
      assert js[1..][..|js| - 2] == js[..|js| - 1][1..];
      var head := Lit(" ").Then(Render(js[0]));
      var mid := JoinsText(js[1..][..|js| - 2]);
      ThenAssoc(head, mid, Lit(" "));
      ThenAssoc(head, mid.Then(Lit(" ")), Render(js[|js| - 1]));
    }
  }

  lemma {:induction false} JoinPartsRenderJoinsText(js: seq<Frag>)
    ensures RenderAll(JoinParts(js)) == JoinsText(js)
    decreases |js|
  {
    if js != [] {
      var init := js[..|js| - 1];
      JoinPartsRenderJoinsText(init);
      RenderAllConcat(JoinParts(init), [Byte(' '), js[|js| - 1]]);
      RenderAll2(Byte(' '), js[|js| - 1]);
      JoinsTextSnoc(js);
      ThenAssoc(JoinsText(init), Lit(" "), Render(js[|js| - 1]));
    }
  }

  lemma {:induction false} JoinsTextParams(js: seq<Frag>)
    ensures JoinsText(js).params == RenderAll(js).params
    decreases |js|
  {
    if js != [] {
      JoinsTextParams(js[1..]);
    }
  }

  /** Build's parameters are the clause fragments' parameters in clause order:
      keywords, separators and the limit add none. */
  lemma BuildParamsInClauseOrder(c: Clauses)
    requires c.from.Some?
    ensures Layout(c).params
      == RenderAll(c.withs).params + RenderAll(c.selects).params + Render(c.from.value).params
       + RenderAll(c.joins).params + RenderAll(c.wheres).params + RenderAll(c.groupBys).params
       + RenderAll(c.orderBys).params
  {
    var f := Render(c.from.value);
    var r1 := WithClause(c.withs).Then(Lit("SELECT "));
    var r2 := r1.Then(Joined(c.selects, ", ")).Then(Lit(" FROM ")).Then(f);
    var r3 := r2.Then(JoinsText(c.joins)).Then(Clause(" WHERE ", c.wheres, " AND "));
    var r4 := r3.Then(Clause(" GROUP BY ", c.groupBys, ", ")).Then(Clause(" ORDER BY ", c.orderBys, ", "));
    assert Layout(c) == r4.Then(LimitText(c.limit));
    WithClauseParams(c.withs);
    JoinedParams(c.selects, ", ");
    JoinsTextParams(c.joins);
    ClauseParams(" WHERE ", c.wheres, " AND ");
    ClauseParams(" GROUP BY ", c.groupBys, ", ");
    ClauseParams(" ORDER BY ", c.orderBys, ", ");
    assert r1.params == RenderAll(c.withs).params;
    assert r2.params == r1.params + RenderAll(c.selects).params + f.params;
    assert r3.params == r2.params + RenderAll(c.joins).params + RenderAll(c.wheres).params;
    assert r4.params == r3.params + RenderAll(c.groupBys).params + RenderAll(c.orderBys).params;
  }

  lemma WithClauseParams(ws: seq<Frag>)
    ensures WithClause(ws).params == RenderAll(ws).params
  {
  }

  lemma ClauseParams(keyword: string, vs: seq<Frag>, sep: string)
    ensures Clause(keyword, vs, sep).params == RenderAll(vs).params
  {
  }

  /** FROM is set, and no literal of FROM or of any clause fragment contains
      a `?` of its own. */
  predicate ClausesMarkFree(c: Clauses) {
    c.from.Some? && MarkFree(c.from.value)
    && AllMarkFree(c.withs) && AllMarkFree(c.selects) && AllMarkFree(c.joins)
    && AllMarkFree(c.wheres) && AllMarkFree(c.groupBys) && AllMarkFree(c.orderBys)
  }

  lemma KeywordMarkFree(s: string)
    requires '?' !in s
    ensures MarkFree(Str(s))
  {
    NoMarks(s);
  }

  lemma ListPartsMarkFree(keyword: string, vs: seq<Frag>, sep: string)
    requires '?' !in keyword && '?' !in sep && AllMarkFree(vs)
    ensures AllMarkFree(ListParts(keyword, vs, sep))
  {
    if vs != [] {
      KeywordMarkFree(keyword);
      KeywordMarkFree(sep);
      IntersperseMarkFree(vs, Str(sep));
    }
  }

  lemma {:induction false} JoinPartsMarkFree(js: seq<Frag>)
    requires AllMarkFree(js)
    ensures AllMarkFree(JoinParts(js))
    decreases |js|
  {
    if js != [] {
      assert AllMarkFree(js[..|js| - 1]);
      JoinPartsMarkFree(js[..|js| - 1]);
      assert MarkFree(js[|js| - 1]);
    }
  }

  lemma WithPartsMarkFree(ws: seq<Frag>)
    requires AllMarkFree(ws)
    ensures AllMarkFree(WithParts(ws))
  {
    if ws != [] {
      KeywordMarkFree("WITH ");
      KeywordMarkFree(", ");
      IntersperseMarkFree(ws, Str(", "));
      AllMarkFreeConcat([Str("WITH ")], Intersperse(ws, Str(", ")));
      AllMarkFreeConcat([Str("WITH ")] + Intersperse(ws, Str(", ")), [Byte(' ')]);
    }
  }

  /** The limit's text is digits after an optional sign: no `?`. */
  lemma LimitPartsMarkFree(limit: int)
    ensures AllMarkFree(LimitParts(limit))
  {
    if limit != 0 {
      var digits := IntToDecimal(limit);
      IntToDecimalRoundTrip(limit);
      assert '?' !in digits;
      KeywordMarkFree(" LIMIT " + digits);
    }
  }

  lemma HeadPartsMarkFree(c: Clauses)
    requires ClausesMarkFree(c)
    ensures AllMarkFree(WithParts(c.withs) + [Str("SELECT ")] + Intersperse(c.selects, Str(", ")) + [Str(" FROM ")] + [c.from.value])
  {
    var p1, p3 := WithParts(c.withs), Intersperse(c.selects, Str(", "));
    WithPartsMarkFree(c.withs);
    KeywordMarkFree("SELECT ");
    KeywordMarkFree(", ");
    IntersperseMarkFree(c.selects, Str(", "));
    KeywordMarkFree(" FROM ");
    AllMarkFreeConcat(p1, [Str("SELECT ")]);
    AllMarkFreeConcat(p1 + [Str("SELECT ")], p3);
    AllMarkFreeConcat(p1 + [Str("SELECT ")] + p3, [Str(" FROM ")]);
    AllMarkFreeConcat(p1 + [Str("SELECT ")] + p3 + [Str(" FROM ")], [c.from.value]);
  }

  lemma TailPartsMarkFree(c: Clauses, acc: seq<Frag>)
    requires ClausesMarkFree(c) && AllMarkFree(acc)
    ensures AllMarkFree(acc + JoinParts(c.joins) + ListParts(" WHERE ", c.wheres, " AND ")
      + ListParts(" GROUP BY ", c.groupBys, ", ") + ListParts(" ORDER BY ", c.orderBys, ", ")
      + LimitParts(c.limit))
  {
    var p6, p7, p8 := JoinParts(c.joins), ListParts(" WHERE ", c.wheres, " AND "), ListParts(" GROUP BY ", c.groupBys, ", ");
    var p9, p10 := ListParts(" ORDER BY ", c.orderBys, ", "), LimitParts(c.limit);
    JoinPartsMarkFree(c.joins);
    ListPartsMarkFree(" WHERE ", c.wheres, " AND ");
    ListPartsMarkFree(" GROUP BY ", c.groupBys, ", ");
    ListPartsMarkFree(" ORDER BY ", c.orderBys, ", ");
    LimitPartsMarkFree(c.limit);
    AllMarkFreeConcat(acc, p6);
    AllMarkFreeConcat(acc + p6, p7);
    AllMarkFreeConcat(acc + p6 + p7, p8);
    AllMarkFreeConcat(acc + p6 + p7 + p8, p9);
    AllMarkFreeConcat(acc + p6 + p7 + p8 + p9, p10);
  }

  /** Keywords, separators and the limit's digits contain no `?`, so the
      children Build lays out are mark-free when the clause fragments are. */
  lemma BuildPartsMarkFree(c: Clauses)
    requires ClausesMarkFree(c)
    ensures AllMarkFree(BuildParts(c))
  {
    HeadPartsMarkFree(c);
    TailPartsMarkFree(c, WithParts(c.withs) + [Str("SELECT ")] + Intersperse(c.selects, Str(", ")) + [Str(" FROM ")] + [c.from.value]);
  }

  /** The built statement has exactly one `?` per parameter when no literal
      of its clause fragments contains one. */
  lemma BuildMarksMatchParams(c: Clauses)
    requires ClausesMarkFree(c)
    ensures Marks(Layout(c).text) == |Layout(c).params|
  {
    BuildPartsMarkFree(c);
    BuildPartsRenderLayout(c);
    MarksMatchParamsAll(BuildParts(c));
  }

  /** The built statement's marks and parameters line up in order: binding
      the k-th parameter to the k-th `?` gives the statement with every value
      written where its placeholder stands. */
  lemma BuildSubstitutesInline(c: Clauses, show: Val -> string)
    requires ClausesMarkFree(c)
    ensures Substitute(Layout(c).text, Layout(c).params, show) == InlineAll(BuildParts(c), show)
  {
    BuildPartsMarkFree(c);
    BuildPartsRenderLayout(c);
    SubstituteRendersInlineAll(BuildParts(c), show);
  }

  /** The subquery fragment Part makes is itself mark-free, so it can be
      nested in another query with the count and order kept. */
  lemma SubqueryMarkFree(c: Clauses)
    requires ClausesMarkFree(c)
    ensures MarkFree(Seq([Byte('('), Rendered(Layout(c).text, Layout(c).params), Byte(')')]))
  {
    BuildMarksMatchParams(c);
  }

  /** A query with nothing but a SELECT list and a FROM target renders with no
      other keyword: no WITH, no join, no WHERE, GROUP BY, ORDER BY or LIMIT. */
  lemma EmptyClausesOmitted(c: Clauses)
    requires c.from.Some?
    requires c.withs == [] && c.joins == [] && c.wheres == [] && c.groupBys == [] && c.orderBys == []
    requires c.limit == 0
    ensures Layout(c) == Lit("SELECT ").Then(Joined(c.selects, ", ")).Then(Lit(" FROM ")).Then(Render(c.from.value))
  {
  }

  /** LIMIT is literal text, never a parameter: the keyword, then the limit's
      canonical decimal text, which decodes back to the limit. */
  lemma LimitIsLiteral(limit: int)
    requires limit != 0
    ensures LimitText(limit).params == []
    ensures var t := LimitText(limit).text;
      |t| > 7 && t[..7] == " LIMIT " && IsIntText(t[7..]) && ParseInt(t[7..]) == limit
      && CanonicalInt(t[7..])
  {
    IntToDecimalRoundTrip(limit);
    var t := LimitText(limit).text;
    assert t[7..] == IntToDecimal(limit);
  }

  /** Build's join loop: each join preceded by one space. */
  method AppendJoins(acc: seq<Frag>, js: seq<Frag>) returns (r: seq<Frag>)
    ensures r == acc + JoinParts(js)
  {
    r := acc;
    var i := 0;
    while i < |js|
      invariant 0 <= i <= |js|
      invariant r == acc + JoinParts(js[..i])
    {
      r := r + [Byte(' '), js[i]];
      assert js[..i + 1][..i] == js[..i];
      i := i + 1;
    }
    assert js[..i] == js;
  }

  /** Build's pattern for WHERE, GROUP BY and ORDER BY: nothing for an empty
      list, otherwise the keyword and the items joined by `sep`. */
  method AppendClause(acc: seq<Frag>, keyword: string, vs: seq<Frag>, sep: string) returns (r: seq<Frag>)
    ensures r == acc + ListParts(keyword, vs, sep)
  {
    r := acc;
    if |vs| != 0 {
      r := AppendJoined(r + [Str(keyword)], vs, Str(sep));
    }
  }

  /** The query (Query in query.go). Every mutator returns the query itself. */
  class Query {
    var from: Option<Frag>
    var selects: seq<Frag>
    var joins: seq<Frag>
    var wheres: seq<Frag>
    var groupBys: seq<Frag>
    var orderBys: seq<Frag>
    var withs: seq<Frag>
    var limit: int

    function State(): Clauses
      reads this
    {
      Clauses(from, selects, joins, wheres, groupBys, orderBys, withs, limit)
    }

    /** NewQuery: every list empty, no FROM target, no limit. */
    constructor ()
      ensures State() == Clauses(None, [], [], [], [], [], [], 0)
    {
      from, limit := None, 0;
      selects, joins, wheres, groupBys, orderBys, withs := [], [], [], [], [], [];
    }

    /** NewQueryFrom. */
    constructor FromTable(table: Frag)
      ensures State() == Clauses(Some(table), [], [], [], [], [], [], 0)
    {
      from, limit := Some(table), 0;
      selects, joins, wheres, groupBys, orderBys, withs := [], [], [], [], [], [];
    }

    method From(table: Frag) returns (q: Query)
      modifies this
      ensures q == this
      ensures State() == old(State()).(from := Some(table))
    {
      from := Some(table);
      q := this;
    }

    method Select(vs: seq<Frag>) returns (q: Query)
      modifies this
      ensures q == this
      ensures State() == old(State()).(selects := old(selects) + vs)
    {
      selects := selects + vs;
      q := this;
    }

    method LeftJoin(table: Frag, cond: Frag) returns (q: Query)
      modifies this
      ensures q == this
      ensures State() == old(State()).(joins := old(joins) + [Seq([Str("LEFT JOIN "), table, Str(" ON "), cond])])
      ensures Render(joins[|joins| - 1]) == Lit("LEFT JOIN ").Then(Render(table)).Then(Lit(" ON ")).Then(Render(cond))
    {
      RenderAll4(Str("LEFT JOIN "), table, Str(" ON "), cond);
      joins := joins + [Seq([Str("LEFT JOIN "), table, Str(" ON "), cond])];
      q := this;
    }

    method InnerJoin(table: Frag, cond: Frag) returns (q: Query)
      modifies this
      ensures q == this
      ensures State() == old(State()).(joins := old(joins) + [Seq([Str("INNER JOIN "), table, Str(" ON "), cond])])
      ensures Render(joins[|joins| - 1]) == Lit("INNER JOIN ").Then(Render(table)).Then(Lit(" ON ")).Then(Render(cond))
    {
      RenderAll4(Str("INNER JOIN "), table, Str(" ON "), cond);
      joins := joins + [Seq([Str("INNER JOIN "), table, Str(" ON "), cond])];
      q := this;
    }

    method Where(vs: seq<Frag>) returns (q: Query)
      modifies this
      ensures q == this
      ensures State() == old(State()).(wheres := old(wheres) + vs)
    {
      wheres := wheres + vs;
      q := this;
    }

    method GroupBy(vs: seq<Frag>) returns (q: Query)
      modifies this
      ensures q == this
      ensures State() == old(State()).(groupBys := old(groupBys) + vs)
    {
      groupBys := groupBys + vs;
      q := this;
    }

    /** Appends `v ASC` or `v DESC`; any other direction changes nothing. */
    method OrderBy(v: Frag, dir: int) returns (q: Query)
      modifies this
      ensures q == this
      ensures dir == Asc ==> State() == old(State()).(orderBys := old(orderBys) + [Seq([v, Str(" ASC")])])
      ensures dir == Desc ==> State() == old(State()).(orderBys := old(orderBys) + [Seq([v, Str(" DESC")])])
      ensures dir != Asc && dir != Desc ==> State() == old(State())
      ensures dir == Asc || dir == Desc ==>
        Render(orderBys[|orderBys| - 1]) == Render(v).Then(Lit(if dir == Asc then " ASC" else " DESC"))
    {
      if dir == Asc {
        RenderAll2(v, Str(" ASC"));
        orderBys := orderBys + [Seq([v, Str(" ASC")])];
      } else if dir == Desc {
        RenderAll2(v, Str(" DESC"));
        orderBys := orderBys + [Seq([v, Str(" DESC")])];
      }
      q := this;
    }

    method Limit(n: int) returns (q: Query)
      modifies this
      ensures q == this
      ensures State() == old(State()).(limit := n)
    {
      limit := n;
      q := this;
    }

    /** A named common table expression: `name AS (part)`. */
    method With(part: Frag, name: Frag) returns (q: Query)
      modifies this
      ensures q == this
      ensures State() == old(State()).(withs := old(withs) + [Seq([name, Str(" AS ("), part, Byte(')')])])
      ensures Render(withs[|withs| - 1]) == Render(name).Then(Lit(" AS (")).Then(Render(part)).Then(Lit(")"))
    {
      RenderAll4(name, Str(" AS ("), part, Byte(')'));
      withs := withs + [Seq([name, Str(" AS ("), part, Byte(')')])];
      q := this;
    }

    /** A recursive common table expression: `RECURSIVE name AS (part)`. */
    method WithRecursive(part: Frag, name: string) returns (q: Query)
      modifies this
      ensures q == this
      ensures State() == old(State()).(withs := old(withs) + [Seq([Str("RECURSIVE " + name + " AS ("), part, Byte(')')])])
      ensures Render(withs[|withs| - 1]) == Lit("RECURSIVE " + name + " AS (").Then(Render(part)).Then(Lit(")"))
    {
      RenderAll3(Str("RECURSIVE " + name + " AS ("), part, Byte(')'));
      withs := withs + [Seq([Str("RECURSIVE " + name + " AS ("), part, Byte(')')])];
      q := this;
    }

    /** Renders the statement. Reads the query and changes nothing, so two
        calls on the same state give the same text and parameters. */
    method Build() returns (text: string, params: seq<Val>)
      requires from.Some?
      ensures Rendering(text, params) == Layout(State())
    {
      var parts: seq<Frag> := [];
      if |withs| > 0 {
        parts := AppendJoined([Str("WITH ")], withs, Str(", "));
        parts := parts + [Byte(' ')];
      }
      assert parts == WithParts(withs);
      parts := AppendJoined(parts + [Str("SELECT ")], selects, Str(", "));
      parts := parts + [Str(" FROM ")] + [from.value];
      parts := AppendJoins(parts, joins);
      parts := AppendClause(parts, " WHERE ", wheres, " AND ");
      parts := AppendClause(parts, " GROUP BY ", groupBys, ", ");
      parts := AppendClause(parts, " ORDER BY ", orderBys, ", ");
      if limit != 0 {
        parts := parts + [Str(" LIMIT " + IntToDecimal(limit))];
      }
      assert parts == BuildParts(State());
      BuildPartsRenderLayout(State());
      var r := RenderAll(parts);
      text, params := r.text, r.params;
    }

    /** The query as a parenthesised subquery fragment, rendered now: the
        fragment holds text and values, not the query. */
    method Part() returns (p: Frag)
      requires from.Some?
      ensures Render(p) == Lit("(").Then(Layout(State())).Then(Lit(")"))
      ensures p == Seq([Byte('('), Rendered(Layout(State()).text, Layout(State()).params), Byte(')')])
      ensures ClausesMarkFree(State()) ==> MarkFree(p)
    {
      var text, params := Build();
      p := Seq([Byte('('), Rendered(text, params), Byte(')')]);
      RenderAll3(Byte('('), Rendered(text, params), Byte(')'));
      if ClausesMarkFree(State()) {
        SubqueryMarkFree(State());
      }
    }
  }

  /** EXISTS followed by the subquery in parentheses. */
  method Exists(q: Query) returns (p: Frag)
    requires q.from.Some?
    ensures Render(p) == Lit("EXISTS").Then(Lit("(")).Then(Layout(q.State())).Then(Lit(")"))
    ensures ClausesMarkFree(q.State()) ==> MarkFree(p)
  {
    var sub := q.Part();
    p := Seq([Str("EXISTS"), sub]);
    RenderAll2(Str("EXISTS"), sub);
    var l := Layout(q.State());
    ThenAssoc(Lit("EXISTS"), Lit("(").Then(l), Lit(")"));
    ThenAssoc(Lit("EXISTS"), Lit("("), l);
    if ClausesMarkFree(q.State()) {
      KeywordMarkFree("EXISTS");
    }
  }

  lemma UnionMarkFree(lt: string, lp: seq<Val>, rt: string, rp: seq<Val>)
    requires Marks(lt) == |lp| && Marks(rt) == |rp|
    ensures MarkFree(Seq([Byte('('), Rendered(lt, lp), Byte(')'), Str(" UNION "), Byte('('), Rendered(rt, rp), Byte(')')]))
  {
    KeywordMarkFree(" UNION ");
  }

  /** `(lhs) UNION (rhs)`, rendered from the two queries' current state. */
  method Union(lhs: Query, rhs: Query) returns (p: Frag)
    requires lhs.from.Some? && rhs.from.Some?
    ensures Render(p) == Lit("(").Then(Layout(lhs.State())).Then(Lit(")")).Then(Lit(" UNION "))
      .Then(Lit("(")).Then(Layout(rhs.State())).Then(Lit(")"))
    ensures ClausesMarkFree(lhs.State()) && ClausesMarkFree(rhs.State()) ==> MarkFree(p)
  {
    var lt, lp := lhs.Build();
    var rt, rp := rhs.Build();
    p := Seq([Byte('('), Rendered(lt, lp), Byte(')'), Str(" UNION "), Byte('('), Rendered(rt, rp), Byte(')')]);
    RenderAll7(Byte('('), Rendered(lt, lp), Byte(')'), Str(" UNION "), Byte('('), Rendered(rt, rp), Byte(')'));
    if ClausesMarkFree(lhs.State()) && ClausesMarkFree(rhs.State()) {
      BuildMarksMatchParams(lhs.State());
      BuildMarksMatchParams(rhs.State());
      UnionMarkFree(lt, lp, rt, rp);
    }
  }
}
