/**
 * The SQL text and argument list that PostgresDB.GetAllAppointments builds
 * for a list query (running the query and scanning rows are not modelled).
 *
 * As written, every condition carries the placeholder number of its kind
 * ($1 for the customer name, $2 for the start, $3 for the end) and the
 * paging clause always reads $4 and $5, while the arguments are appended
 * only for the filters present. The numbers therefore match the arguments
 * only when all three filters are given. The corrected builder numbers the
 * placeholders in the order the arguments are appended.
 */
module PostgresList {
  import opened Models
  import opened SqlText

  const LimitClause := " LIMIT $4 OFFSET $5"

  /** The text of a present filter's condition before its placeholder. */
  function ConditionText(key: string): string
  {
    if key == "customer_name" then "customer_name ILIKE "
    else if key == "start" then "time >= "
    else "time <= "
  }

  /** The number the source writes into a filter's condition: fixed by the
      filter's kind, not by its position among the arguments. */
  function FixedNumber(key: string): (n: int)
    ensures 1 <= n <= 3
  {
    KeyRank(key) + 1
  }

  /** `text` followed by the placeholder `$n`. */
  function Placeholder(text: string, n: int): string
    requires 0 <= n <= 9
  {
    text + ['$', DigitChar(n)]
  }

  /** The condition a present filter contributes, as written. */
  function Condition(key: string): string
  {
    Placeholder(ConditionText(key), FixedNumber(key))
  }

  /** The conditions are the three texts of the source. */
  lemma ConditionLiterals()
    ensures Condition("customer_name") == "customer_name ILIKE $1"
    ensures Condition("start") == "time >= $2"
    ensures Condition("end") == "time <= $3"
  {
  }

  /** The conditions of the present filters, in checking order. */
  function Conditions(filters: map<string, FilterValue>): seq<string>
  {
    ConditionsOf(filters, Condition)
  }

  /** The query text: select, conditions if any, order if any, then paging. */
  function Query(filters: map<string, FilterValue>, sort: string): string
  {
    Select + WhereClause(Conditions(filters)) + OrderClause(sort) + LimitClause
  }

  /** PostgresDB.GetAllAppointments up to the call of Query, as written. */
  method BuildListQuery(filters: map<string, FilterValue>, sort: string, limit: int, offset: int)
    returns (query: string, args: seq<Arg>)
    requires TextFilters(filters)
    ensures query == Query(filters, sort) && args == ListArgs(filters, limit, offset)
  {
    ConditionLiterals();
    query := Select;
    var conditions: seq<string> := [];
    args := [];

    if "customer_name" in filters {
      conditions := conditions + ["customer_name ILIKE $1"];
      args := args + [StrArg("%" + filters["customer_name"].text + "%")];
    }
    assert conditions == ConditionIf(filters, "customer_name", Condition);
    assert args == ArgIf(filters, "customer_name");
    if "start" in filters {
      conditions := conditions + ["time >= $2"];
      args := args + [StrArg(filters["start"].text)];
    }
    assert conditions == ConditionIf(filters, "customer_name", Condition) + ConditionIf(filters, "start", Condition);
    assert args == ArgIf(filters, "customer_name") + ArgIf(filters, "start");
    if "end" in filters {
      conditions := conditions + ["time <= $3"];
      args := args + [StrArg(filters["end"].text)];
    }
    assert conditions == Conditions(filters);
    assert args == FilterArgs(filters);

    if |conditions| > 0 {
      query := query + (" WHERE " + Join(conditions, " AND "));
    }
    assert query == Select + WhereClause(conditions);
    if sort != "" {
      query := query + (" ORDER BY " + sort);
    }
    assert query == Select + WhereClause(conditions) + OrderClause(sort);
    query := query + LimitClause;
    args := args + [IntArg(limit), IntArg(offset)];
  }

  /** The numbers the as-written conditions refer to, in order. */
  function FixedNumbers(filters: map<string, FilterValue>): (r: seq<int>)
    ensures |r| == |Present(filters)|
  {
    seq(|Present(filters)|, i requires 0 <= i < |Present(filters)| => FixedNumber(Present(filters)[i]))
  }

  /** As written, the query refers to each present filter by the number of
      its kind, then to whatever the sort text holds, then to $4 and $5. */
  lemma QueryRefs(filters: map<string, FilterValue>, sort: string)
    ensures DollarRefs(Query(filters, sort)) == FixedNumbers(filters) + DollarRefs(sort) + [4, 5]
  {
    var conditions := Conditions(filters);
    assert RefsOf(conditions) == FixedNumbers(filters) by {
      forall i | 0 <= i < |conditions| ensures DollarRefs(conditions[i]) == [FixedNumbers(filters)[i]] {
        ConditionRef(Present(filters)[i]);
      }
      RefsOfSingles(conditions, FixedNumbers(filters));
    }
    assert DollarRefs(LimitClause) == [4, 5] && LimitClause[0] == ' ' by {
      LimitRefs();
    }
    assert DollarRefs(Select) == [] by {
      SelectRefs();
    }
    QueryShapeRefs(Select, conditions, sort, LimitClause);
  }

  lemma ConditionRef(key: string)
    ensures DollarRefs(Condition(key)) == [FixedNumber(key)]
  {
    ConditionTextWords(key);
    OnePlaceholder(ConditionText(key), FixedNumber(key));
  }

  lemma ConditionTextWords(key: string)
    ensures '$' !in ConditionText(key)
  {
  }

  lemma LimitRefs()
    ensures DollarRefs(LimitClause) == [4, 5] && LimitClause[0] == ' '
  {
    PagingRefs(3);
    PagingLiteral();
  }

  /** The written paging clause is the one the corrected builder makes after
      three filter arguments. */
  lemma PagingLiteral()
    ensures PagingClause(3) == LimitClause
  {
  }

  /** As written, the placeholders match the arguments exactly when all three
      filters are given: then the conditions refer to $1, $2, $3 ... */
  lemma AlignedRefs(filters: map<string, FilterValue>, sort: string)
    requires AllPresent(filters)
    ensures DollarRefs(Query(filters, sort)) == [1, 2, 3] + DollarRefs(sort) + [4, 5]
  {
    PresentAll(filters);
    assert FixedNumbers(filters) == [1, 2, 3] by {
      AllFixedNumbers();
    }
    QueryRefs(filters, sort);
  }

  /** ... and the five arguments are the three filter values and the paging
      values, in that order. */
  lemma AlignedArgs(filters: map<string, FilterValue>, limit: int, offset: int)
    requires TextFilters(filters) && AllPresent(filters)
    ensures ListArgs(filters, limit, offset) ==
              [StrArg("%" + filters["customer_name"].text + "%"), StrArg(filters["start"].text),
               StrArg(filters["end"].text), IntArg(limit), IntArg(offset)]
  {
    PresentAll(filters);
    var args := ListArgs(filters, limit, offset);
    assert args[0] == FilterArg("customer_name", filters);
    assert args[1] == FilterArg("start", filters);
    assert args[2] == FilterArg("end", filters);
  }

  lemma AllFixedNumbers()
    ensures FixedNumber("customer_name") == 1 && FixedNumber("start") == 2 && FixedNumber("end") == 3
  {
  }

  /** As written, with any filter missing there are fewer than five arguments
      while the query still refers to $5, so the paging placeholders (and any
      condition numbered past the missing one) point beyond or at the wrong
      argument. */
  lemma UnboundPlaceholder(filters: map<string, FilterValue>, sort: string, limit: int, offset: int)
    requires TextFilters(filters) && !AllPresent(filters)
    ensures |ListArgs(filters, limit, offset)| < 5
    ensures 5 in DollarRefs(Query(filters, sort))
  {
    QueryRefs(filters, sort);
    var refs := FixedNumbers(filters) + DollarRefs(sort) + [4, 5];
    assert refs[|refs| - 1] == 5;
    assert |Present(filters)| < 3;
  }

  /** A concrete case: only a start bound, no sort. The query reads
      `... WHERE time >= $2 LIMIT $4 OFFSET $5` while the arguments are the
      bound, the limit and the offset: $2 names the limit and $4, $5 name
      nothing. */
  lemma StartOnlyExample(start: string, limit: int, offset: int)
    ensures DollarRefs(Query(map["start" := Text(start)], "")) == [2, 4, 5]
    ensures ListArgs(map["start" := Text(start)], limit, offset) == [StrArg(start), IntArg(limit), IntArg(offset)]
  {
    var filters := map["start" := Text(start)];
    assert Present(filters) == ["start"];
    QueryRefs(filters, "");
    NoDollarNoRefs("");
  }

  /** The paging clause of the corrected builder: the two numbers after the
      `n` filter arguments. */
  function PagingClause(n: int): string
    requires 0 <= n <= 7
  {
    " LIMIT " + ['$', DigitChar(n + 1)] + " OFFSET " + ['$', DigitChar(n + 2)]
  }

  lemma PagingRefs(n: int)
    requires 0 <= n <= 7
    ensures DollarRefs(PagingClause(n)) == [n + 1, n + 2] && PagingClause(n)[0] == ' '
  {
    var limitPart, offsetPart := Placeholder(" LIMIT ", n + 1), Placeholder(" OFFSET ", n + 2);
    PagingWords();
    OnePlaceholder(" LIMIT ", n + 1);
    OnePlaceholder(" OFFSET ", n + 2);
    assert offsetPart[0] == ' ';
    DollarRefsConcat(limitPart, offsetPart);
    assert PagingClause(n) == limitPart + offsetPart;
  }

  lemma PagingWords()
    ensures '$' !in " LIMIT " && '$' !in " OFFSET " && " LIMIT "[0] == ' ' && " OFFSET "[0] == ' '
  {
  }

  /** Corrected conditions: the i-th present filter refers to $(i+1). */
  function Numbered(keys: seq<string>): (r: seq<string>)
    requires |keys| <= 9
    ensures |r| == |keys|
  {
    seq(|keys|, i requires 0 <= i < |keys| => Placeholder(ConditionText(keys[i]), i + 1))
  }

  /** One more key takes the next number. */
  lemma NumberedSnoc(keys: seq<string>, key: string)
    requires |keys| < 9
    ensures Numbered(keys + [key]) == Numbered(keys) + [Placeholder(ConditionText(key), |keys| + 1)]
  {
  }

  lemma NumberedEach(keys: seq<string>)
    requires |keys| <= 9
    ensures forall i :: 0 <= i < |keys| ==> DollarRefs(Numbered(keys)[i]) == [i + 1]
  {
    forall i | 0 <= i < |keys| ensures DollarRefs(Numbered(keys)[i]) == [i + 1] {
      ConditionTextWords(keys[i]);
      OnePlaceholder(ConditionText(keys[i]), i + 1);
    }
  }

  lemma NumberedConditionRefs(keys: seq<string>)
    requires |keys| <= 9
    ensures RefsOf(Numbered(keys)) == UpTo(|keys|)
  {
    NumberedEach(keys);
    RefsOfSingles(Numbered(keys), UpTo(|keys|));
  }

  /** The corrected query text. */
  function NumberedQuery(filters: map<string, FilterValue>, sort: string): string
  {
    NumberedText(Present(filters), sort)
  }

  /** The corrected query for the present keys `keys`. */
  function NumberedText(keys: seq<string>, sort: string): string
    requires |keys| <= 7
  {
    Select + WhereClause(Numbered(keys)) + OrderClause(sort) + PagingClause(|keys|)
  }

  /** The corrected builder: each condition takes the number of the argument
      it appends, and limit and offset take the next two. */
  method BuildNumberedListQuery(filters: map<string, FilterValue>, sort: string, limit: int, offset: int)
    returns (query: string, args: seq<Arg>)
    requires TextFilters(filters)
    ensures query == NumberedQuery(filters, sort) && args == ListArgs(filters, limit, offset)
  {
    var conditions;
    conditions, args := CollectNumbered(filters);
    assert |args| == |Present(filters)|;
    NumberedByPosition(filters);
    query := Select;
    if |conditions| > 0 {
      query := query + (" WHERE " + Join(conditions, " AND "));
    }
    assert query == Select + WhereClause(conditions);
    if sort != "" {
      query := query + (" ORDER BY " + sort);
    }
    assert query == Select + WhereClause(conditions) + OrderClause(sort);
    query := query + PagingClause(|args|);
    args := args + [IntArg(limit), IntArg(offset)];
  }

  /** The conditions and filter arguments of the corrected builder. */
  method CollectNumbered(filters: map<string, FilterValue>) returns (conditions: seq<string>, args: seq<Arg>)
    requires TextFilters(filters)
    ensures conditions == NumberedConditions(filters) && args == FilterArgs(filters)
  {
    conditions, args := [], [];
    if "customer_name" in filters {
      conditions := conditions + [Placeholder("customer_name ILIKE ", |args| + 1)];
      args := args + [StrArg("%" + filters["customer_name"].text + "%")];
    }
    assert conditions == NumberedIf(filters, "customer_name", 0);
    assert args == ArgIf(filters, "customer_name");
    if "start" in filters {
      conditions := conditions + [Placeholder("time >= ", |args| + 1)];
      args := args + [StrArg(filters["start"].text)];
    }
    assert conditions == NumberedIf(filters, "customer_name", 0) + NumberedIf(filters, "start", |ArgIf(filters, "customer_name")|);
    assert args == ArgIf(filters, "customer_name") + ArgIf(filters, "start");
    if "end" in filters {
      conditions := conditions + [Placeholder("time <= ", |args| + 1)];
      args := args + [StrArg(filters["end"].text)];
    }
  }

  /** The condition of `key`, numbered after the `n` arguments before it,
      if that filter is present. */
  function NumberedIf(filters: map<string, FilterValue>, key: string, n: nat): seq<string>
    requires n <= 8
  {
    if key in filters then [Placeholder(ConditionText(key), n + 1)] else []
  }

  /** The corrected conditions of the present filters. */
  function NumberedConditions(filters: map<string, FilterValue>): (r: seq<string>)
    requires TextFilters(filters)
  {
    var before := |ArgIf(filters, "customer_name")|;
    NumberedIf(filters, "customer_name", 0) + NumberedIf(filters, "start", before) +
    NumberedIf(filters, "end", before + |ArgIf(filters, "start")|)
  }

  /** Numbering while appending is numbering by position among the present
      filters. */
  lemma NumberedByPosition(filters: map<string, FilterValue>)
    requires TextFilters(filters)
    ensures NumberedConditions(filters) == Numbered(Present(filters))
  {
    var keys := Present(filters);
    var r := NumberedConditions(filters);
    if "customer_name" in filters {
      if "start" in filters {
        if "end" in filters {
          assert keys == ["customer_name", "start", "end"];
        } else {
          assert keys == ["customer_name", "start"];
        }
      } else {
        if "end" in filters {
          assert keys == ["customer_name", "end"];
        } else {
          assert keys == ["customer_name"];
        }
      }
    } else {
      if "start" in filters {
        if "end" in filters {
          assert keys == ["start", "end"];
        } else {
          assert keys == ["start"];
        }
      } else {
        if "end" in filters {
          assert keys == ["end"];
        } else {
          assert keys == [];
        }
      }
    }
  }

  /** The numbers 1 to n, in order. */
  function UpTo(n: nat): (r: seq<int>)
    ensures |r| == n && forall i :: 0 <= i < n ==> r[i] == i + 1
  {
    seq(n, i => i + 1)
  }

  /** Corrected: outside the sort text the query refers to $1 .. $n in order,
      where n is the number of arguments, and the k-th reference names the
      k-th argument: the filters' values in checking order, then limit and
      offset (the order ListArgs states). */
  lemma NumberedRefs(filters: map<string, FilterValue>, sort: string)
    ensures var n := |Present(filters)|;
            DollarRefs(NumberedQuery(filters, sort)) == UpTo(n) + DollarRefs(sort) + [n + 1, n + 2]
  {
    NumberedTextRefs(Present(filters), sort);
  }

  lemma NumberedTextRefs(keys: seq<string>, sort: string)
    requires |keys| <= 7
    ensures var n := |keys|;
            DollarRefs(NumberedText(keys, sort)) == UpTo(n) + DollarRefs(sort) + [n + 1, n + 2]
  {
    NumberedConditionRefs(keys);
    PagingRefs(|keys|);
    SelectRefs();
    QueryShapeRefs(Select, Numbered(keys), sort, PagingClause(|keys|));
  }

  /** The correction changes nothing when all three filters are given, the
      one case the written numbering gets right. */
  lemma NumberedAgreesWhenAllPresent(filters: map<string, FilterValue>, sort: string)
    requires AllPresent(filters)
    ensures NumberedQuery(filters, sort) == Query(filters, sort)
  {
    PresentAll(filters);
    assert Numbered(FilterKeys) == Conditions(filters);
    PagingLiteral();
  }

  /** Keys other than customer_name, start and end change neither the query
      nor its arguments, as written or corrected. */
  lemma OtherKeysIgnored(f: map<string, FilterValue>, g: map<string, FilterValue>, sort: string, limit: int, offset: int)
    requires TextFilters(f) && TextFilters(g) && SameRecognised(f, g)
    ensures Query(f, sort) == Query(g, sort)
    ensures NumberedQuery(f, sort) == NumberedQuery(g, sort)
    ensures ListArgs(f, limit, offset) == ListArgs(g, limit, offset)
  {
    assert Present(f) == Present(g);
  }
}
