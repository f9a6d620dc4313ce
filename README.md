# query_builder in Dafny

This is a model of the Go package `query_builder`, a small SQL text builder, with proofs of what its two halves promise.

- **Fragment engine (`part.go`, module `Parts`).** A fragment (`Frag`) is one of five kinds:
  - a byte literal;
  - a string literal;
  - a placeholder carrying one value;
  - a sequence of fragments;
  - an already rendered subquery (`partQuery`, kind `Rendered`).

  `Render` turns a fragment into a `Rendering`: SQL text plus the ordered list of values bound to its `?` marks. On top of it sit:
  - `append` and the binary operators;
  - `IN`/`NOT IN`;
  - comma-joined lists (`List`, `Concat`, `TableFields`);
  - the SQL function wrappers;
  - the typed literal formatters (`Value*`) with their fail-fast default;
  - placeholder constructors, single and batch;
  - `DateOverlaps`;
  - the in-place `ValueBuilder`.
- **Statement assembler (`query.go`, module `Queries`).** `Query` is a class. Its fields are the FROM fragment, six clause lists and the limit. Every mutator appends to one list, or overwrites one field, and returns the query itself.
  - `Build` is proved against `Layout`, a clause-by-clause statement of the output. `Layout` fixes the order WITH, `SELECT … FROM`, joins, WHERE, GROUP BY, ORDER BY, LIMIT, with empty clauses omitted.
  - `Part`, `Exists` and `Union` wrap the rendered statement as a subquery.
- **Decimal text (`Decimal`, `Values`).** `strconv.Itoa` and the zero-padded fields of `time.Format` are defined here. Each has a decoder, so round trips can be proved.

Recursive rendering is modelled as functions: `parts.Build` is the fold `RenderAll`. Where the source appends in a loop, the model has a `method` with a loop, proved against a reference function:
- `In` and `AppendJoined` against `Intersperse` and `Joined`;
- the batch `Param*` constructors;
- `Query.Build`.

The model has no zero `Part` anywhere: every `Frag` has a builder. In Go, a zero `Part` (a nil builder, written `var p Part` or `Part{}`) can be passed to any operator or clause. Rendering a tree that contains one panics. A query's FROM before `From` is called is such a zero `Part`. The model writes it as `Option.None`, and `Build`, `Part`, `Exists` and `Union` require FROM to be set.

## Model

| member | source | states |
|---|---|---|
| Decimal.NatToDecimal | part.go:270-272 | The digits of a natural number are never empty, are all decimal digits, and have no leading zero except for 0 itself. |
| Decimal.ParseNatToDecimal | part.go:270-272 | The digit text decodes back to the number. |
| Decimal.IntToDecimalRoundTrip | part.go:270-272 | Itoa text is a well-formed integer that decodes back to the value. It has a `-` exactly when the value is negative, and the magnitude has no leading zero, so the text is canonical. |
| Decimal.NatToDecimalUnique | part.go:270-272 | A digit string without a leading zero is exactly the digit text of the number it denotes. |
| Decimal.CanonicalIntUnique | part.go:270-272 | Canonical integer text is exactly Itoa's text of its value, so a canonical text that decodes to `i` is the only text Itoa gives for `i`. |
| Decimal.PadDecimal | part.go:274-276 | A zero-padded field is all digits and has length max(width, digit count). It decodes back to the value. |
| Decimal.NatToDecimalWidth | part.go:274-276 | A value below 10^width never needs more than `width` digits, so the fixed-width fields of the time layout are exact. |
| Values.FormatTime | part.go:274-276 | For fields that fit the layout, the text is exactly `YYYY-MM-DD HH:MM:SS`. Each field decodes to the time's own year, month, day, hour, minute and second. |
| Parts.Render | part.go:12-28 | The leaf `Build` methods: a byte or a string renders as itself with no params, and a placeholder renders `?` with its one value. A sequence renders through `RenderAll`, and a rendered subquery (query.go:16-18) gives back its stored text and values. |
| Parts.RenderAll | part.go:32-41 | `parts.Build` as a fold: the children's texts concatenated and their params appended, in child order. |
| Parts.BuildAll | part.go:32-41 | The source's loop over the children, which writes each child's text and appends its values, yields exactly `RenderAll` of the children. |
| Parts.RenderAllConcat | part.go:32-41 | Rendering a sequence is a homomorphism: children `a + b` render to a's text and params followed by b's. |
| Parts.MarksMatchParams | part.go:12-41 | When no literal contains `?` (and a rendered subquery has one mark per value), the text has exactly one `?` per parameter. |
| Parts.MarksMatchParamsAll | part.go:32-41 | The same count for a sequence of children. |
| Parts.SubstituteConcat | part.go:32-41 | Binding values to marks splits at a text boundary when the first text's marks use up exactly its own values. |
| Parts.SubstituteRendersInline | part.go:12-41 | Marks and params match in order: binding the k-th param to the k-th `?` of a mark-free fragment's text gives the fragment's text with each value written at its own placeholder. |
| Parts.SubstituteRendersInlineAll | part.go:32-41 | The same for a sequence of children. |
| Parts.Frag.Append | part.go:51-57 | `append` yields a sequence that renders as this fragment's text and params followed by each added child's, whether or not this was already a sequence. |
| Parts.Frag.As | part.go:59-61 | Renders as the fragment followed by ` AS alias`, with the fragment's params only. |
| Parts.Frag.Eq | part.go:63-65 | Renders as left, ` = `, right; params are left's then right's. |
| Parts.Frag.Ne | part.go:67-69 | Left, ` != `, right; params in order. |
| Parts.Frag.Lt | part.go:71-73 | Left, ` < `, right; params in order. |
| Parts.Frag.Lte | part.go:75-77 | Left, ` <= `, right; params in order. |
| Parts.Frag.Gt | part.go:79-81 | Left, ` > `, right; params in order. |
| Parts.Frag.Gte | part.go:83-85 | Left, ` >= `, right; params in order. |
| Parts.Frag.In | part.go:87-101 | An empty list appends exactly ` IN (NULL)` and no params. Otherwise it appends ` IN (`, the items joined by `, `, then `)`, with the items' params in order. |
| Parts.Frag.NotIn | part.go:103-105 | The same as `In`, with ` NOT` inserted before it. |
| Parts.Frag.Add | part.go:107-109 | Left, ` + `, right; params in order. |
| Parts.Frag.Sub | part.go:111-113 | Left, ` - `, right; params in order. |
| Parts.Frag.Is | part.go:115-117 | Left, ` IS `, right; params in order. |
| Parts.Frag.IsNot | part.go:119-121 | Left, ` IS NOT `, right; params in order. |
| Parts.Frag.And | part.go:123-125 | Left, ` AND `, right; params in order. |
| Parts.Frag.Or | part.go:131-133 | Left, ` OR `, right; params in order. |
| Parts.Frag.Xor | part.go:139-141 | Left, ` XOR `, right; params in order. |
| Parts.And | part.go:127-129 | The free form renders left, ` AND `, right. |
| Parts.Or | part.go:135-137 | The free form renders left, ` OR `, right. |
| Parts.Xor | part.go:143-145 | The free form renders left, ` XOR `, right. |
| Parts.FreeAndMethodFormsAgree | part.go:123-145 | `And(l, r)` and `l.And(r)` render to the same text and params, and so do the `Or` and `Xor` pairs. |
| Parts.IntersperseShape | part.go:147-156 | n items give 2n-1 children: item k at position 2k and a separator at every odd position. So there are n-1 separators, all between items. |
| Parts.IntersperseMarkFree | part.go:147-156 | Interspersing mark-free items with a mark-free separator gives only mark-free children. |
| Parts.IntersperseLength | part.go:147-156 | n items give 2n-1 children, and none give none. |
| Parts.IntersperseItem | part.go:147-156 | Item j sits at position 2j, so the items keep their order. |
| Parts.IntersperseSeparator | part.go:147-156 | Position 2j+1 holds the separator for every j before the last item. |
| Parts.IntersperseRendersJoined | part.go:147-156 | The interspersed children render to the items joined by the separator text. |
| Parts.JoinedParams | part.go:147-156 | Separators add no params: a joined list carries exactly its items' params, in order. |
| Parts.AppendJoined | part.go:147-156 | The append loop produces the existing children followed by the items, with a separator between consecutive items only. |
| Parts.List | part.go:147-156 | `List` is the interspersed sequence and renders to the items joined by `, `, so it is empty for no items. |
| Parts.Cond | part.go:158-160 | Renders `(`, v, `)`. |
| Parts.Min | part.go:162-164 | Renders `MIN(`, v, `)`. |
| Parts.Max | part.go:166-168 | Renders `MAX(`, v, `)`. |
| Parts.Count | part.go:170-172 | Renders `COUNT(`, v, `)`. |
| Parts.Average | part.go:174-176 | Renders `CAST(AVG(`, v, `) AS DECIMAL(7,2))`. |
| Parts.ToBase64 | part.go:178-180 | Renders `TO_BASE64(`, v, `)`. |
| Parts.DateOverlaps | part.go:182-192 | The text is `(s IS NULL OR e IS NULL OR ? <= e AND ? >= s)`. The params are those of s and e around the two placeholders. The placeholders hold startB then endB, each replaced by `now` when its Unix time is <= 0. |
| Parts.Concat | part.go:194-205 | Renders `CONCAT(`, the items joined by `, `, `)`, so no items give `CONCAT()`. |
| Parts.Distinct | part.go:207-209 | Renders `DISTINCT(`, v, `)`. |
| Parts.JsonExtract | part.go:211-213 | Renders `JSON_EXTRACT(`, v, `, `, cmd, `)`. |
| Parts.If | part.go:215-217 | Renders `IF(`, cond, `, `, default, `, `, v, `)`. |
| Parts.Case | part.go:219-221 | Renders `CASE WHEN `, cond, ` THEN `, then, ` ELSE `, else, ` END`. |
| Parts.Value | part.go:251-264 | Fails, with the message naming the type, exactly for a value that is not a string, int, time or bool. Otherwise it dispatches to the matching formatter. |
| Parts.ValueString | part.go:266-268 | The text is the string between single quotes, unescaped, with no params. |
| Parts.ValueInt | part.go:270-272 | The text is canonical integer text (no leading zero, no `-0`) that decodes back to the value, with a leading `-` exactly when the value is negative. With `CanonicalIntUnique` this is exactly Itoa's text. No params. |
| Parts.ValueTime | part.go:274-276 | The text is quoted. For fields that fit, the inside is exactly the `YYYY-MM-DD HH:MM:SS` layout of the time. No params. |
| Parts.All | part.go:227-231 | Renders `*`, with no params and no mark. |
| Parts.Null | part.go:233-237 | Renders `NULL`, with no params and no mark. |
| Parts.True | part.go:239-243 | Renders `TRUE`, with no params and no mark. |
| Parts.False | part.go:245-249 | Renders `FALSE`, with no params and no mark. |
| Parts.ValueBool | part.go:278-284 | Renders `TRUE` or `FALSE`, with no params. |
| Parts.Table | part.go:286-288 | Renders the name verbatim. |
| Parts.Field | part.go:290-292 | Renders the name verbatim. |
| Parts.FieldNp | part.go:294-296 | Renders `np.field`. |
| Parts.Alias | part.go:298-300 | Renders the name verbatim. |
| Parts.ParamBool | part.go:302-304 | Renders `?` with exactly the one bool value. |
| Parts.ParamInt | part.go:306-308 | Renders `?` with exactly the one int value. |
| Parts.ParamString | part.go:310-312 | Renders `?` with exactly the one string value. |
| Parts.Param | part.go:314-316 | Renders `?` with exactly the one value. |
| Parts.ParamBools | part.go:318-324 | One part per input; part i is `ParamBool(vs[i])`. |
| Parts.ParamInts | part.go:326-332 | One part per input; part i is `ParamInt(vs[i])`. |
| Parts.ParamStrings | part.go:334-340 | One part per input; part i is `ParamString(vs[i])`. |
| Parts.Params | part.go:342-348 | One part per input; part i is `Param(vs[i])`. |
| Parts.ValueBuilder.constructor | part.go:352-354 | A new builder holds just `VALUES ` and no rows. |
| Parts.ValueBuilder.Append | part.go:356-368 | Only appends: the old children stay a prefix. The group gets a leading `, ` exactly when the buffer held more than `VALUES `. The rendering stays `VALUES ` followed by the rows so far, comma-separated, each parenthesised and comma-joined. |
| Parts.ValueBuilder.Part | part.go:374-380 | The builder's fragment renders as `VALUES ` followed by its rows. |
| Parts.TableFields | part.go:382-392 | Renders `name(`, the fields joined by `, `, `)`. |
| Queries.Query.FromTable | query.go:31-35 | `NewQueryFrom`: FROM is set, every list is empty and the limit is 0. |
| Queries.Query.constructor | query.go:37-39 | `NewQuery`: no FROM, every list empty, limit 0. |
| Queries.Query.From | query.go:41-44 | Overwrites FROM only, so the last call wins. Returns the same query. |
| Queries.Union | query.go:46-48 | Renders `(`, lhs, `) UNION (`, rhs, `)`, with lhs's params then rhs's. The result is mark-free when both queries' fragments are. |
| Queries.Query.Select | query.go:50-53 | Appends to the SELECT list only, keeping prior entries. Returns the same query. |
| Queries.Query.LeftJoin | query.go:55-58 | Appends one `LEFT JOIN table ON cond` entry to the join list only. |
| Queries.Query.InnerJoin | query.go:60-63 | Appends one `INNER JOIN table ON cond` entry to the join list only. |
| Queries.Query.Where | query.go:65-68 | Appends to the WHERE list only. |
| Queries.Query.GroupBy | query.go:70-73 | Appends to the GROUP BY list only. |
| Queries.Query.OrderBy | query.go:82-90 | Appends `v ASC` for direction 0 and `v DESC` for 1. Any other direction leaves the query unchanged. |
| Queries.Query.Limit | query.go:92-95 | Overwrites the limit only. |
| Queries.Query.With | query.go:97-100 | Appends `name AS (part)` to the WITH list only. |
| Queries.Query.WithRecursive | query.go:102-105 | Appends `RECURSIVE name AS (part)` to the WITH list only. |
| Queries.Query.Part | query.go:107-110 | A snapshot: `(`, the rendered statement as fixed text and values, `)`. Same params. The fragment is mark-free when the query's fragments are, so nesting keeps the mark count. |
| Queries.Query.Build | query.go:112-170 | Changes nothing and returns exactly the clause-by-clause `Layout` of the current state. |
| Queries.BuildPartsRenderLayout | query.go:112-170 | The children Build appends render to `Layout`. Clause order is WITH, SELECT, FROM, joins, WHERE, GROUP BY, ORDER BY, LIMIT. Empty clauses are omitted with their keywords. |
| Queries.AppendJoins | query.go:134-138 | The join loop appends one space before each join. |
| Queries.JoinPartsRenderJoinsText | query.go:134-138 | Those children render to each join preceded by one space. |
| Queries.AppendClause | query.go:139-165 | WHERE, GROUP BY and ORDER BY add nothing for an empty list. Otherwise they add the keyword and the items with separators between them only. |
| Queries.ListPartsRenderClause | query.go:139-165 | Those children render to the keyword followed by the items joined by the separator (` AND ` for WHERE, `, ` otherwise). |
| Queries.BuildParamsInClauseOrder | query.go:112-170 | Build's params are the WITH, SELECT, FROM, join, WHERE, GROUP BY and ORDER BY fragments' params, in that order. Keywords, separators and the limit add none. |
| Queries.EmptyClausesOmitted | query.go:112-170 | With only SELECT and FROM set, the statement is exactly `SELECT items FROM from`. |
| Queries.LimitIsLiteral | query.go:166-168 | A non-zero limit renders ` LIMIT ` followed by canonical decimal text that decodes back to the limit, which is Itoa's text by `CanonicalIntUnique`. It adds no params. |
| Queries.ListPartsMarkFree | query.go:139-165 | A clause's keyword, separators and items are mark-free when the items are. |
| Queries.JoinPartsMarkFree | query.go:134-138 | The join children are mark-free when the joins are. |
| Queries.WithPartsMarkFree | query.go:114-123 | The WITH children are mark-free when the WITH entries are. |
| Queries.LimitPartsMarkFree | query.go:166-168 | The LIMIT text holds no `?`. |
| Queries.BuildPartsMarkFree | query.go:112-170 | Keywords, separators and the limit add no `?`, so Build's children are mark-free when FROM and every clause fragment are. |
| Queries.BuildMarksMatchParams | query.go:112-170 | The built statement has exactly one `?` per param when FROM and every clause fragment are mark-free. |
| Queries.BuildSubstitutesInline | query.go:112-170 | The built statement's marks and params match in order: binding the k-th param to the k-th `?` gives the statement with each value written at its own placeholder. |
| Queries.SubqueryMarkFree | query.go:107-110 | The parenthesised subquery made from a mark-free query is itself mark-free. |
| Queries.Exists | part.go:223-225 | Renders `EXISTS`, `(`, the query's statement, `)`. The result is mark-free when the query's fragments are. |

## Left out

- The BuildQuery test scenario (query_test.go:54-71) is not replayed. Equalities between long string literals are beyond the verifier's resource budget. `BuildPartsRenderLayout`, `BuildParamsInClauseOrder` and the per-fragment contracts state the general layout and parameter order that the scenario instantiates.
- Slice-capacity aliasing in `append` (part.go:51-57) is not modelled. Fragments are immutable values, so two fragments extended from one shared sequence never see each other's children.
- Queries.Union: Go keeps pointers to both queries and renders them when the union is rendered. The model renders them when `Union` is called, so mutations between the two are not reflected.
- Parts.DateOverlaps: `time.Now()` is read twice in Go. The model takes one `now` parameter for both reads.
- `time.Time` is not modelled. A time is its Unix seconds plus civil fields already in its location. `Unix()`, time zones and calendar validity are not modelled.
- Values.FormatTime: the layout is proved only for fields that fit their widths (year below 10000). Go's handling of negative or five-digit years is not modelled.
- Go's `int` is 64 bits; the model uses unbounded integers for limits and values.
- Go's `interface{}` values are a closed datatype. Every other dynamic type is `Other(typeName)`, and Go's panic is the `Panic` result of `Value`. The `%T` spelling of the type name is not modelled.
- `Part.IsZero` (part.go:47-49) and a zero `Part` are not modelled: every `Frag` has a builder. In Go, any caller can make a zero `Part` (`var p Part`, `Part{}`) and pass it to an operator, `Select`, `Where`, `NewQueryFrom` or `With`. Rendering a tree that contains one panics at part.go:370-372. The model cannot express such a tree, except for a query's FROM before `From`, which is `Option.None`.
- Parts.ValueBuilder: the zero `ValueBuilder` (not made by `NewValueBuilder`) is not modelled. The class invariant starts from `VALUES `.
- `strings.Builder` and `strconv` are not modelled. Plain concatenation and the verified `IntToDecimal` stand in for them.
- The `partToString` test helpers and the testify assertions are not modelled.
