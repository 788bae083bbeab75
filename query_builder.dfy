/** The fluent SELECT builder: a value-level description of its state and of
    each call, the rendering done by `build()`, and the mutable builder
    object whose methods are proved to perform exactly those calls. */
module QueryBuilding {
  import opened Values
  import opened Strings

  datatype Order = Asc | Desc

  function OrderText(o: Order): string
  {
    match o
    case Asc => "ASC"
    case Desc => "DESC"
  }

  /** One `orderBy` entry. */
  datatype OrderTerm = OrderTerm(field: string, order: Order)

  /** The six fields of a builder. `tableName` and `limitValue` are `None`
      while they are `null` (or `undefined`). */
  datatype BuilderState = BuilderState(
    selectFields: seq<string>,
    tableName: Option<string>,
    whereConditions: seq<string>,
    orderByFields: seq<OrderTerm>,
    limitValue: Option<nat>,
    params: seq<Value>)

  /** The state of a freshly constructed builder. */
  function Empty(): BuilderState
  {
    BuilderState([], None, [], [], None, [])
  }

  /** One chained call on a builder. `FromCall(None)` is `from(undefined)`,
      what a model class that never sets its table name passes. */
  datatype Call =
    | SelectCall(fields: seq<string>)
    | FromCall(table: Option<string>)
    | WhereCall(condition: string, values: seq<Value>)
    | OrderByCall(term: OrderTerm)
    | LimitCall(limit: nat)

  /** Which builder method a call is. */
  function Kind(c: Call): nat
  {
    match c
    case SelectCall(_) => 0
    case FromCall(_) => 1
    case WhereCall(_, _) => 2
    case OrderByCall(_) => 3
    case LimitCall(_) => 4
  }

  /** The effect of one call: `select`, `from` and `limit` overwrite their
      field; `where` and `orderBy` append. */
  function Apply(s: BuilderState, c: Call): BuilderState
  {
    match c
    case SelectCall(fields) => s.(selectFields := fields)
    case FromCall(table) => s.(tableName := table)
    case WhereCall(cond, values) =>
      s.(whereConditions := s.whereConditions + [cond], params := s.params + values)
    case OrderByCall(term) => s.(orderByFields := s.orderByFields + [term])
    case LimitCall(n) => s.(limitValue := Some(n))
  }

  /** The state after a fresh builder received the calls `h`, in order. */
  function Replay(h: seq<Call>): BuilderState
  {
    if |h| == 0 then Empty() else Apply(Replay(h[..|h| - 1]), h[|h| - 1])
  }

  /** Replaying one more call applies it to the state reached so far. */
  lemma ReplaySnoc(h: seq<Call>, c: Call)
    ensures Replay(h + [c]) == Apply(Replay(h), c)
  {
    assert (h + [c])[..|h|] == h;
  }

  // ---------------------------------------------------------------------
  // Rendering

  /** The projection: the fields joined by ", ", or `*` when there are none. */
  function Projection(fields: seq<string>): string
  {
    if |fields| > 0 then Join(fields, ", ") else "*"
  }

  function OrderTexts(terms: seq<OrderTerm>): (r: seq<string>)
    ensures |r| == |terms|
    ensures forall i :: 0 <= i < |terms| ==> r[i] == terms[i].field + " " + OrderText(terms[i].order)
  {
    if |terms| == 0 then [] else [terms[0].field + " " + OrderText(terms[0].order)] + OrderTexts(terms[1..])
  }

  function WhereClause(s: BuilderState): string
  {
    "WHERE " + Join(s.whereConditions, " AND ")
  }

  function OrderClause(s: BuilderState): string
  {
    "ORDER BY " + Join(OrderTexts(s.orderByFields), ", ")
  }

  function LimitClause(s: BuilderState): string
    requires s.limitValue.Some?
  {
    "LIMIT " + NatToString(s.limitValue.value)
  }

  /** The clause list `build()` pushes, in the order it pushes them. */
  function Clauses(s: BuilderState, table: string): seq<string>
  {
    var q0 := ["SELECT " + Projection(s.selectFields), "FROM " + table];
    var q1 := if |s.whereConditions| > 0 then q0 + [WhereClause(s)] else q0;
    var q2 := if |s.orderByFields| > 0 then q1 + [OrderClause(s)] else q1;
    if s.limitValue.Some? then q2 + [LimitClause(s)] else q2
  }

  /** The text the WHERE fragments add: ` WHERE ` and the fragments joined
      by " AND ", or nothing when there are none. */
  function WherePart(s: BuilderState): string
  {
    if |s.whereConditions| == 0 then "" else " WHERE " + Join(s.whereConditions, " AND ")
  }

  /** The text the ORDER BY terms add: ` ORDER BY ` and the `field order`
      terms joined by ", ", or nothing when there are none. */
  function OrderPart(s: BuilderState): string
  {
    if |s.orderByFields| == 0 then "" else " ORDER BY " + Join(OrderTexts(s.orderByFields), ", ")
  }

  /** The text the limit adds: ` LIMIT ` and its decimal digits, or nothing
      when no limit was set. */
  function LimitPart(s: BuilderState): string
  {
    if s.limitValue == None then "" else " LIMIT " + NatToString(s.limitValue.value)
  }

  /** `build()`: fails when the table is unset or the empty string (the
      falsy check); otherwise the text is the projection, the table, and the
      WHERE, ORDER BY and LIMIT parts in that fixed order, each present
      exactly when its field is non-empty or set, and the parameters are
      exactly those accumulated. */
  function Render(s: BuilderState): (r: Result<Query>)
    ensures r.Failure? <==> (s.tableName == None || s.tableName == Some(""))
    ensures r.Failure? ==> r.error == TableNotSpecified
    ensures r.Success? ==> r.value.params == s.params
    ensures r.Success? ==> (r.value.text ==
      "SELECT " + Projection(s.selectFields) + " FROM " + s.tableName.value
        + WherePart(s) + OrderPart(s) + LimitPart(s))
  {
    if s.tableName == None || s.tableName == Some("") then Failure(TableNotSpecified)
    else
      ClausesJoined(s, s.tableName.value);
      Success(Query(Join(Clauses(s, s.tableName.value), " "), s.params))
  }

  /** Joining the pushed clauses with single spaces puts one space before
      each optional clause that is present and nothing for one that is not. */
  lemma ClausesJoined(s: BuilderState, table: string)
    ensures Join(Clauses(s, table), " ") ==
      "SELECT " + Projection(s.selectFields) + " FROM " + table + WherePart(s) + OrderPart(s) + LimitPart(s)
  {
    var sel := "SELECT " + Projection(s.selectFields);
    var q0 := [sel, "FROM " + table];
    FirstTwoJoined(sel, table);
    var q1 := if |s.whereConditions| > 0 then q0 + [WhereClause(s)] else q0;
    WherePushed(s, q0);
    var q2 := if |s.orderByFields| > 0 then q1 + [OrderClause(s)] else q1;
    OrderPushed(s, q1);
    LimitPushed(s, q2);
  }

  lemma FirstTwoJoined(sel: string, table: string)
    ensures Join([sel, "FROM " + table], " ") == sel + " FROM " + table
  {
    assert [sel, "FROM " + table] == [sel] + ["FROM " + table];
    JoinSnoc([sel], "FROM " + table, " ");
    assert " " + "FROM " == " FROM ";
  }

  lemma WherePushed(s: BuilderState, q: seq<string>)
    requires |q| > 0
    ensures Join(if |s.whereConditions| > 0 then q + [WhereClause(s)] else q, " ") == Join(q, " ") + WherePart(s)
  {
    if |s.whereConditions| > 0 {
      JoinSnoc(q, WhereClause(s), " ");
      assert " " + "WHERE " == " WHERE ";
    }
  }

  lemma OrderPushed(s: BuilderState, q: seq<string>)
    requires |q| > 0
    ensures Join(if |s.orderByFields| > 0 then q + [OrderClause(s)] else q, " ") == Join(q, " ") + OrderPart(s)
  {
    if |s.orderByFields| > 0 {
      JoinSnoc(q, OrderClause(s), " ");
      assert " " + "ORDER BY " == " ORDER BY ";
    }
  }

  lemma LimitPushed(s: BuilderState, q: seq<string>)
    requires |q| > 0
    ensures Join(if s.limitValue.Some? then q + [LimitClause(s)] else q, " ") == Join(q, " ") + LimitPart(s)
  {
    if s.limitValue.Some? {
      JoinSnoc(q, LimitClause(s), " ");
      assert " " + "LIMIT " == " LIMIT ";
    }
  }

  // ---------------------------------------------------------------------
  // What a sequence of calls leaves behind

  /** What one call adds to the parameters, the WHERE fragments and the
      ORDER BY terms. */
  function CallValues(c: Call): seq<Value> { if c.WhereCall? then c.values else [] }
  function CallFragments(c: Call): seq<string> { if c.WhereCall? then [c.condition] else [] }
  function CallTerms(c: Call): seq<OrderTerm> { if c.OrderByCall? then [c.term] else [] }

  /** All values passed to `where`, concatenated in call order. */
  function WhereValues(h: seq<Call>): seq<Value>
  {
    if |h| == 0 then [] else CallValues(h[0]) + WhereValues(h[1..])
  }

  /** All fragments passed to `where`, in call order. */
  function WhereFragments(h: seq<Call>): seq<string>
  {
    if |h| == 0 then [] else CallFragments(h[0]) + WhereFragments(h[1..])
  }

  /** All terms passed to `orderBy`, in call order. */
  function OrderTerms(h: seq<Call>): seq<OrderTerm>
  {
    if |h| == 0 then [] else CallTerms(h[0]) + OrderTerms(h[1..])
  }

  lemma {:induction false} WhereValuesSnoc(h: seq<Call>, c: Call)
    ensures WhereValues(h + [c]) == WhereValues(h) + CallValues(c)
  {
    if |h| == 0 {
      assert h + [c] == [c];
    } else {
      assert (h + [c])[1..] == h[1..] + [c];
      WhereValuesSnoc(h[1..], c);
    }
  }

  lemma {:induction false} WhereFragmentsSnoc(h: seq<Call>, c: Call)
    ensures WhereFragments(h + [c]) == WhereFragments(h) + CallFragments(c)
  {
    if |h| == 0 {
      assert h + [c] == [c];
    } else {
      assert (h + [c])[1..] == h[1..] + [c];
      WhereFragmentsSnoc(h[1..], c);
    }
  }

  lemma {:induction false} OrderTermsSnoc(h: seq<Call>, c: Call)
    ensures OrderTerms(h + [c]) == OrderTerms(h) + CallTerms(c)
  {
    if |h| == 0 {
      assert h + [c] == [c];
    } else {
      assert (h + [c])[1..] == h[1..] + [c];
      OrderTermsSnoc(h[1..], c);
    }
  }

  /** `where` fragments, their values and `orderBy` terms accumulate in call
      order and nothing else touches them: in particular the parameters are
      exactly the `where` value lists concatenated, never reordered. */
  lemma {:induction false} AccumulatedInCallOrder(h: seq<Call>)
    ensures Replay(h).params == WhereValues(h)
    ensures Replay(h).whereConditions == WhereFragments(h)
    ensures Replay(h).orderByFields == OrderTerms(h)
  {
    if |h| > 0 {
      var init, last := h[..|h| - 1], h[|h| - 1];
      assert init + [last] == h;
      AccumulatedInCallOrder(init);
      ReplaySnoc(init, last);
      WhereValuesSnoc(init, last);
      WhereFragmentsSnoc(init, last);
      OrderTermsSnoc(init, last);
    }
  }

  /** `select`, `from` and `limit` are last-call-wins: after a call of one of
      them, later calls of the other methods leave its field as it set it. */
  lemma {:induction false} LastCallWins(h: seq<Call>, c: Call, later: seq<Call>)
    requires c.SelectCall? || c.FromCall? || c.LimitCall?
    requires forall i :: 0 <= i < |later| ==> Kind(later[i]) != Kind(c)
    ensures c.SelectCall? ==> Replay(h + [c] + later).selectFields == c.fields
    ensures c.FromCall? ==> Replay(h + [c] + later).tableName == c.table
    ensures c.LimitCall? ==> Replay(h + [c] + later).limitValue == Some(c.limit)
  {
    if |later| == 0 {
      assert h + [c] + later == h + [c];
      assert (h + [c])[..|h|] == h;
    } else {
      var init := later[..|later| - 1];
      LastCallWins(h, c, init);
      var all := h + [c] + later;
      assert all[..|all| - 1] == h + [c] + init;
    }
  }

  /** A field that is only overwritten keeps its initial value while its
      method is never called; in particular LIMIT is absent and the
      projection is `*` until `limit` and `select` are called. */
  lemma {:induction false} NeverCalled(h: seq<Call>)
    ensures (forall i :: 0 <= i < |h| ==> !h[i].SelectCall?) ==> Replay(h).selectFields == []
    ensures (forall i :: 0 <= i < |h| ==> !h[i].FromCall?) ==> Replay(h).tableName == None
    ensures (forall i :: 0 <= i < |h| ==> !h[i].LimitCall?) ==> Replay(h).limitValue == None
  {
    if |h| > 0 {
      NeverCalled(h[..|h| - 1]);
    }
  }

  /** The optional clauses track the calls: WHERE is rendered exactly when
      `where` was called, ORDER BY exactly when `orderBy` was, and LIMIT
      exactly when `limit` was, whatever the value, `limit(0)` included. */
  lemma {:induction false} OptionalClausesPresentIffCalled(h: seq<Call>)
    ensures |Replay(h).whereConditions| > 0 <==> exists i :: 0 <= i < |h| && h[i].WhereCall?
    ensures |Replay(h).orderByFields| > 0 <==> exists i :: 0 <= i < |h| && h[i].OrderByCall?
    ensures Replay(h).limitValue.Some? <==> exists i :: 0 <= i < |h| && h[i].LimitCall?
  {
    if |h| > 0 {
      var init := h[..|h| - 1];
      var last := h[|h| - 1];
      OptionalClausesPresentIffCalled(init);
      assert forall i :: 0 <= i < |h| - 1 ==> h[i] == init[i];
      if last.WhereCall? || last.OrderByCall? || last.LimitCall? {
        assert h[|h| - 1] == last;
      }
    }
  }

  // ---------------------------------------------------------------------
  // The builder object

  class QueryBuilder {
    var selectFields: seq<string>
    var tableName: Option<string>
    var whereConditions: seq<string>
    var orderByFields: seq<OrderTerm>
    var limitValue: Option<nat>
    var params: seq<Value>
    /** The calls made on this builder so far. */
    ghost var history: seq<Call>

    function State(): BuilderState
      reads this
    {
      BuilderState(selectFields, tableName, whereConditions, orderByFields, limitValue, params)
    }

    /** The fields are what the recorded calls produce from a fresh builder. */
    ghost predicate Valid()
      reads this
    {
      State() == Replay(history)
    }

    constructor ()
      ensures Valid() && history == []
      ensures State() == Empty()
    {
      selectFields, tableName, whereConditions := [], None, [];
      orderByFields, limitValue, params := [], None, [];
      history := [];
    }

    method Select(fields: seq<string>)
      requires Valid()
      modifies this
      ensures Valid() && history == old(history) + [SelectCall(fields)]
      ensures State() == old(State()).(selectFields := fields)
    {
      selectFields := fields;
      ReplaySnoc(history, SelectCall(fields));
      history := history + [SelectCall(fields)];
    }

    method From(table: string)
      requires Valid()
      modifies this
      ensures Valid() && history == old(history) + [FromCall(Some(table))]
      ensures State() == old(State()).(tableName := Some(table))
    {
      tableName := Some(table);
      ReplaySnoc(history, FromCall(Some(table)));
      history := history + [FromCall(Some(table))];
    }

    method Where(condition: string, values: seq<Value> := [])
      requires Valid()
      modifies this
      ensures Valid() && history == old(history) + [WhereCall(condition, values)]
      ensures State() == old(State()).(whereConditions := old(whereConditions) + [condition],
                                       params := old(params) + values)
    {
      whereConditions := whereConditions + [condition];
      params := params + values;
      ReplaySnoc(history, WhereCall(condition, values));
      history := history + [WhereCall(condition, values)];
    }

    method OrderBy(field: string, order: Order := Asc)
      requires Valid()
      modifies this
      ensures Valid() && history == old(history) + [OrderByCall(OrderTerm(field, order))]
      ensures State() == old(State()).(orderByFields := old(orderByFields) + [OrderTerm(field, order)])
    {
      orderByFields := orderByFields + [OrderTerm(field, order)];
      ReplaySnoc(history, OrderByCall(OrderTerm(field, order)));
      history := history + [OrderByCall(OrderTerm(field, order))];
    }

    method Limit(value: nat)
      requires Valid()
      modifies this
      ensures Valid() && history == old(history) + [LimitCall(value)]
      ensures State() == old(State()).(limitValue := Some(value))
    {
      limitValue := Some(value);
      ReplaySnoc(history, LimitCall(value));
      history := history + [LimitCall(value)];
    }

    /** `build()` reads the fields and changes none of them: it renders the
        calls made on this builder, so every lemma about `Replay` applies. */
    function Build(): (r: Result<Query>)
      requires Valid()
      reads this
      ensures r == Render(Replay(history))
    {
      Render(State())
    }
  }
}
