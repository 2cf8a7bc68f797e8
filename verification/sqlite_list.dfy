/**
 * The SQL text and argument list that SQLiteDB.GetAllAppointments builds for
 * a list query (running the query and scanning rows are not modelled).
 */
module SqliteList {
  import opened Models
  import opened SqlText

  const LimitClause := " LIMIT ? OFFSET ?"

  /** The condition a present filter contributes. */
  function Condition(key: string): string
  {
    if key == "customer_name" then "customer_name LIKE ?"
    else if key == "start" then "time >= ?"
    else "time <= ?"
  }

  /** The conditions of the present filters, in checking order. */
  function Conditions(filters: map<string, FilterValue>): seq<string>
  {
    ConditionsOf(filters, Condition)
  }

  /** The query text: select, conditions if any, order if any, then paging. */
  function Query(filters: map<string, FilterValue>, sort: string): string
  {
    Select + WhereClause(Conditions(filters)) + OrderClause(sort) + LimitClause
  }

  /** SQLiteDB.GetAllAppointments up to the call of Query. */
  method BuildListQuery(filters: map<string, FilterValue>, sort: string, limit: int, offset: int)
    returns (query: string, args: seq<Arg>)
    requires TextFilters(filters)
    ensures query == Query(filters, sort) && args == ListArgs(filters, limit, offset)
  {
    query := Select;
    var conditions: seq<string> := [];
    args := [];

    if "customer_name" in filters {
      conditions := conditions + ["customer_name LIKE ?"];
      args := args + [StrArg("%" + filters["customer_name"].text + "%")];
    }
    assert conditions == ConditionIf(filters, "customer_name", Condition);
    assert args == ArgIf(filters, "customer_name");
    if "start" in filters {
      conditions := conditions + ["time >= ?"];
      args := args + [StrArg(filters["start"].text)];
    }
    assert conditions == ConditionIf(filters, "customer_name", Condition) + ConditionIf(filters, "start", Condition);
    assert args == ArgIf(filters, "customer_name") + ArgIf(filters, "start");
    if "end" in filters {
      conditions := conditions + ["time <= ?"];
      args := args + [StrArg(filters["end"].text)];
    }
    assert conditions == Conditions(filters);
    assert args == FilterArgs(filters);

    if |conditions| > 0 {
      query := query + (" WHERE " + Join(conditions, " AND "));
    }
    assert query == Select + WhereClause(conditions);
    if sort != "" {
      query := query + (" ORDER BY " + sort);
    }
    assert query == Select + WhereClause(conditions) + OrderClause(sort);
    query := query + LimitClause;
    args := args + [IntArg(limit), IntArg(offset)];
  }

  /** The paging clause always comes last. */
  lemma QueryEndsWithPaging(filters: map<string, FilterValue>, sort: string)
    ensures EndsWith(Query(filters, sort), LimitClause)
  {
    EndsWithConcat(Select + WhereClause(Conditions(filters)) + OrderClause(sort), LimitClause);
  }

  /** Every `?` outside the sort text has exactly one argument. */
  lemma PlaceholderCount(filters: map<string, FilterValue>, sort: string, limit: int, offset: int)
    requires TextFilters(filters)
    ensures Occurrences(Query(filters, sort), '?') == |ListArgs(filters, limit, offset)| + Occurrences(sort, '?')
  {
    var conditions := Conditions(filters);
    var where, order := WhereClause(conditions), OrderClause(sort);
    ConditionsPlaceholders(filters);
    WhereCount(conditions);
    OrderCount(sort);
    SelectPlaceholders();
    LimitPlaceholders();
    OccurrencesConcat(Select, where, '?');
    OccurrencesConcat(Select + where, order, '?');
    OccurrencesConcat(Select + where + order, LimitClause, '?');
  }

  lemma ConditionsPlaceholders(filters: map<string, FilterValue>)
    ensures forall i :: 0 <= i < |Conditions(filters)| ==> Occurrences(Conditions(filters)[i], '?') == 1
  {
    forall i | 0 <= i < |Conditions(filters)| ensures Occurrences(Conditions(filters)[i], '?') == 1 {
      ConditionPlaceholder(Present(filters)[i]);
    }
  }

  lemma WhereCount(conditions: seq<string>)
    requires forall i :: 0 <= i < |conditions| ==> Occurrences(conditions[i], '?') == 1
    ensures Occurrences(WhereClause(conditions), '?') == |conditions|
  {
    if conditions != [] {
      AndPlaceholders();
      JoinOccurrences(conditions, " AND ", '?');
      WherePlaceholders();
      OccurrencesConcat(" WHERE ", Join(conditions, " AND "), '?');
    }
  }

  lemma OrderCount(sort: string)
    ensures Occurrences(OrderClause(sort), '?') == Occurrences(sort, '?')
  {
    if sort != "" {
      OrderPlaceholders();
      OccurrencesConcat(" ORDER BY ", sort, '?');
    }
  }

  lemma ConditionPlaceholder(key: string)
    ensures Occurrences(Condition(key), '?') == 1
  {
    if key == "customer_name" {
      NameConditionPlaceholder();
    } else if key == "start" {
      StartConditionPlaceholder();
    } else {
      EndConditionPlaceholder();
    }
  }

  lemma NameConditionPlaceholder()
    ensures Occurrences("customer_name LIKE ?", '?') == 1
  {
    assert '?' !in "customer_name LIKE ";
    assert "customer_name LIKE ?" == "customer_name LIKE " + ['?'];
    OneMore("customer_name LIKE ", '?');
  }

  lemma StartConditionPlaceholder()
    ensures Occurrences("time >= ?", '?') == 1
  {
    assert '?' !in "time >= ";
    assert "time >= ?" == "time >= " + ['?'];
    OneMore("time >= ", '?');
  }

  lemma EndConditionPlaceholder()
    ensures Occurrences("time <= ?", '?') == 1
  {
    assert '?' !in "time <= ";
    assert "time <= ?" == "time <= " + ['?'];
    OneMore("time <= ", '?');
  }

  lemma SelectPlaceholders()
    ensures Occurrences(Select, '?') == 0
  {
    SelectPieces();
    NoneIn(Select, '?');
  }

  lemma LimitPlaceholders()
    ensures Occurrences(LimitClause, '?') == 2
  {
    LimitWords();
    assert LimitClause == " LIMIT " + ['?'] + (" OFFSET " + ['?']);
    OneMore(" LIMIT ", '?');
    OneMore(" OFFSET ", '?');
    OccurrencesConcat(" LIMIT " + ['?'], " OFFSET " + ['?'], '?');
  }

  lemma LimitWords()
    ensures '?' !in " LIMIT " && '?' !in " OFFSET "
  {
  }

  lemma WherePlaceholders()
    ensures Occurrences(" WHERE ", '?') == 0
  {
    assert '?' !in " WHERE ";
    NoneIn(" WHERE ", '?');
  }

  lemma AndPlaceholders()
    ensures Occurrences(" AND ", '?') == 0
  {
    assert '?' !in " AND ";
    NoneIn(" AND ", '?');
  }

  lemma OrderPlaceholders()
    ensures Occurrences(" ORDER BY ", '?') == 0
  {
    assert '?' !in " ORDER BY ";
    NoneIn(" ORDER BY ", '?');
  }

  /** Keys other than customer_name, start and end change neither the query
      nor its arguments. */
  lemma OtherKeysIgnored(f: map<string, FilterValue>, g: map<string, FilterValue>, sort: string, limit: int, offset: int)
    requires TextFilters(f) && TextFilters(g) && SameRecognised(f, g)
    ensures Query(f, sort) == Query(g, sort)
    ensures ListArgs(f, limit, offset) == ListArgs(g, limit, offset)
  {
    assert Present(f) == Present(g);
  }
}
