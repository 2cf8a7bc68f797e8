/**
 * What the two list-query builders share: the positional argument values,
 * the three filter keys they read, `strings.Join`, and the two ways of
 * reading placeholders back out of a query string (`?` marks, counted; and
 * `$n` references, listed in order).
 */
module SqlText {
  import opened Models

  /** The select list both builders start from (the same text as the one
      literal in the source, kept here in three pieces). */
  const Select := "SELECT id, customer_name, " + "time, duration, notes " + "FROM appointments"

  lemma SelectPieces()
    ensures '?' !in "SELECT id, customer_name, "
    ensures '?' !in "time, duration, notes "
    ensures '?' !in "FROM appointments"
  {
  }

  lemma SelectDollars()
    ensures '$' !in "SELECT id, customer_name, "
    ensures '$' !in "time, duration, notes "
    ensures '$' !in "FROM appointments"
  {
  }

  /** `" WHERE "` and the conditions joined by `" AND "`, if there are any. */
  function WhereClause(conditions: seq<string>): (r: string)
    ensures r == "" <==> conditions == []
  {
    if conditions == [] then "" else " WHERE " + Join(conditions, " AND ")
  }

  /** `" ORDER BY "` and the sort text, if it is not empty. */
  function OrderClause(sort: string): (r: string)
    ensures r == "" <==> sort == ""
  {
    if sort == "" then "" else " ORDER BY " + sort
  }

  /** An element of the `args []interface{}` slice. */
  datatype Arg = StrArg(s: string) | IntArg(n: int)

  /** The only filter keys the builders read, in the order they check them. */
  const FilterKeys: seq<string> := ["customer_name", "start", "end"]

  function KeyRank(key: string): nat
  {
    if key == "customer_name" then 0 else if key == "start" then 1 else 2
  }

  /** The builders assert `.(string)` on these three values; a value of any
      other type makes them panic. */
  predicate TextFilters(filters: map<string, FilterValue>)
  {
    forall k :: k in filters && k in FilterKeys ==> filters[k].Text?
  }

  /** The recognised keys present in `filters`, in checking order. */
  function Present(filters: map<string, FilterValue>): (r: seq<string>)
    ensures forall i :: 0 <= i < |r| ==> r[i] in FilterKeys && r[i] in filters
    ensures |r| <= 3
  {
    (if "customer_name" in filters then ["customer_name"] else []) +
    (if "start" in filters then ["start"] else []) +
    (if "end" in filters then ["end"] else [])
  }

  /** Exactly the recognised keys of `filters`, each once, in checking order. */
  lemma PresentInOrder(filters: map<string, FilterValue>)
    ensures forall k :: k in Present(filters) <==> k in FilterKeys && k in filters
    ensures forall i, j :: 0 <= i < j < |Present(filters)| ==> KeyRank(Present(filters)[i]) < KeyRank(Present(filters)[j])
  {
  }

  /** All three recognised filters are present. */
  predicate AllPresent(filters: map<string, FilterValue>)
  {
    "customer_name" in filters && "start" in filters && "end" in filters
  }

  lemma PresentAll(filters: map<string, FilterValue>)
    requires AllPresent(filters)
    ensures Present(filters) == FilterKeys
  {
  }

  /** Two filter maps that agree on the three recognised keys. */
  predicate SameRecognised(f: map<string, FilterValue>, g: map<string, FilterValue>)
  {
    forall k :: k in FilterKeys ==> (k in f <==> k in g) && (k in f ==> f[k] == g[k])
  }

  /** The argument for a present filter: the customer name becomes a
      substring pattern, the time bounds are passed as they are. */
  function FilterArg(key: string, filters: map<string, FilterValue>): (r: Arg)
    requires key in FilterKeys && key in filters && TextFilters(filters)
    ensures key == "customer_name" ==> r == StrArg("%" + filters[key].text + "%")
    ensures key != "customer_name" ==> r == StrArg(filters[key].text)
  {
    if key == "customer_name" then StrArg("%" + filters[key].text + "%") else StrArg(filters[key].text)
  }

  /** The arguments of the present filters, in checking order. */
  function FilterArgs(filters: map<string, FilterValue>): (r: seq<Arg>)
    requires TextFilters(filters)
    ensures |r| == |Present(filters)|
    ensures forall i :: 0 <= i < |r| ==> r[i] == FilterArg(Present(filters)[i], filters)
  {
    ArgIf(filters, "customer_name") + ArgIf(filters, "start") + ArgIf(filters, "end")
  }

  /** The arguments both builders pass: one per present filter in checking
      order, then limit and offset. */
  function ListArgs(filters: map<string, FilterValue>, limit: int, offset: int): (r: seq<Arg>)
    requires TextFilters(filters)
    ensures |r| == |Present(filters)| + 2
    ensures forall i :: 0 <= i < |Present(filters)| ==> r[i] == FilterArg(Present(filters)[i], filters)
    ensures r[|Present(filters)|] == IntArg(limit) && r[|Present(filters)| + 1] == IntArg(offset)
  {
    FilterArgs(filters) + [IntArg(limit), IntArg(offset)]
  }

  /** The conditions the present filters contribute, in checking order;
      `condition` gives each builder's own text for a key. */
  function ConditionsOf(filters: map<string, FilterValue>, condition: string -> string): (r: seq<string>)
    ensures |r| == |Present(filters)|
    ensures forall i :: 0 <= i < |r| ==> r[i] == condition(Present(filters)[i])
  {
    ConditionIf(filters, "customer_name", condition) + ConditionIf(filters, "start", condition) +
    ConditionIf(filters, "end", condition)
  }

  /** The condition of `key` if that filter is present. */
  function ConditionIf(filters: map<string, FilterValue>, key: string, condition: string -> string): seq<string>
  {
    if key in filters then [condition(key)] else []
  }

  /** The argument of `key` if that filter is present. */
  function ArgIf(filters: map<string, FilterValue>, key: string): seq<Arg>
    requires key in FilterKeys && TextFilters(filters)
  {
    if key in filters then [FilterArg(key, filters)] else []
  }

  /** Go's strings.Join. */
  function Join(parts: seq<string>, sep: string): string
  {
    if parts == [] then ""
    else if |parts| == 1 then parts[0]
    else parts[0] + sep + Join(parts[1..], sep)
  }

  predicate EndsWith(s: string, suffix: string)
  {
    |suffix| <= |s| && s[|s| - |suffix|..] == suffix
  }

  lemma EndsWithConcat(s: string, suffix: string)
    ensures EndsWith(s + suffix, suffix)
  {
    assert (s + suffix)[|s|..] == suffix;
  }

  /** How many times `c` occurs in `s`. */
  function Occurrences(s: string, c: char): nat
  {
    if s == [] then 0 else (if s[0] == c then 1 else 0) + Occurrences(s[1..], c)
  }

  lemma {:induction false} OccurrencesConcat(a: string, b: string, c: char)
    ensures Occurrences(a + b, c) == Occurrences(a, c) + Occurrences(b, c)
  {
    if a == [] {
      assert a + b == b;
    } else {
      assert (a + b)[1..] == a[1..] + b;
      OccurrencesConcat(a[1..], b, c);
    }
  }

  lemma {:induction false} NoneIn(s: string, c: char)
    requires c !in s
    ensures Occurrences(s, c) == 0
  {
    if s != [] {
      assert s[0] != c;
      NoneIn(s[1..], c);
    }
  }

  /** `s` followed by one `c` holds exactly one `c`. */
  lemma OneMore(s: string, c: char)
    requires c !in s
    ensures Occurrences(s + [c], c) == 1
  {
    NoneIn(s, c);
    OccurrencesConcat(s, [c], c);
  }

  /** Joining parts that hold one `c` each with a separator that holds none
      gives one `c` per part. */
  lemma {:induction false} JoinOccurrences(parts: seq<string>, sep: string, c: char)
    requires forall i :: 0 <= i < |parts| ==> Occurrences(parts[i], c) == 1
    requires Occurrences(sep, c) == 0
    ensures Occurrences(Join(parts, sep), c) == |parts|
  {
    if |parts| > 1 {
      JoinOccurrences(parts[1..], sep, c);
      OccurrencesConcat(parts[0], sep, c);
      OccurrencesConcat(parts[0] + sep, Join(parts[1..], sep), c);
    }
  }

  predicate IsDigit(ch: char)
  {
    '0' <= ch <= '9'
  }

  function DigitChar(d: int): (ch: char)
    requires 0 <= d <= 9
    ensures IsDigit(ch) && ch as int - '0' as int == d
  {
    ('0' as int + d) as char
  }

  /** The placeholder numbers `$n` (one digit each) in `s`, left to right. */
  function DollarRefs(s: string): seq<int>
  {
    if |s| < 2 then []
    else (if s[0] == '$' && IsDigit(s[1]) then [s[1] as int - '0' as int] else []) + DollarRefs(s[1..])
  }

  /** `a + b` does not glue a `$` at the end of `a` to a digit at the start of `b`. */
  predicate CleanSeam(a: string, b: string)
  {
    !(|a| > 0 && a[|a| - 1] == '$' && |b| > 0 && IsDigit(b[0]))
  }

  lemma {:induction false} DollarRefsConcat(a: string, b: string)
    requires CleanSeam(a, b)
    ensures DollarRefs(a + b) == DollarRefs(a) + DollarRefs(b)
  {
    if a == [] {
      assert a + b == b;
    } else if |a| == 1 {
      if |b| > 0 {
        assert (a + b)[1..] == b;
      }
    } else {
      assert (a + b)[1..] == a[1..] + b;
      DollarRefsConcat(a[1..], b);
    }
  }

  lemma {:induction false} NoDollarNoRefs(s: string)
    requires '$' !in s
    ensures DollarRefs(s) == []
  {
    if |s| >= 2 {
      assert s[0] != '$';
      NoDollarNoRefs(s[1..]);
    }
  }

  /** A string that ends in one placeholder and has no other `$`. */
  lemma OnePlaceholder(text: string, d: int)
    requires '$' !in text && 0 <= d <= 9
    ensures DollarRefs(text + ['$', DigitChar(d)]) == [d]
  {
    NoDollarNoRefs(text);
    DollarRefsConcat(text, ['$', DigitChar(d)]);
  }

  /** The references of several strings, one after the other. */
  function RefsOf(parts: seq<string>): seq<int>
  {
    if parts == [] then [] else DollarRefs(parts[0]) + RefsOf(parts[1..])
  }

  /** Joining with a separator that has no placeholder of its own and cannot
      complete one keeps the references of the parts, in order. */
  lemma {:induction false} JoinRefs(parts: seq<string>, sep: string)
    requires |sep| > 0 && !IsDigit(sep[0]) && sep[|sep| - 1] != '$' && DollarRefs(sep) == []
    ensures DollarRefs(Join(parts, sep)) == RefsOf(parts)
  {
    if |parts| == 1 {
      assert RefsOf(parts[1..]) == [];
    } else if |parts| > 1 {
      JoinRefs(parts[1..], sep);
      DollarRefsConcat(parts[0], sep);
      DollarRefsConcat(parts[0] + sep, Join(parts[1..], sep));
    }
  }

  /** Strings with one reference each, taken in turn, give those references. */
  lemma {:induction false} RefsOfSingles(parts: seq<string>, numbers: seq<int>)
    requires |parts| == |numbers|
    requires forall i :: 0 <= i < |parts| ==> DollarRefs(parts[i]) == [numbers[i]]
    ensures RefsOf(parts) == numbers
  {
    if parts != [] {
      RefsOfSingles(parts[1..], numbers[1..]);
    }
  }

  /** The references of a query made of a head without references, a where
      clause, an order clause and a tail that starts with a space: those of
      the conditions, then of the sort text, then of the tail. */
  lemma QueryShapeRefs(head: string, conditions: seq<string>, sort: string, tail: string)
    requires DollarRefs(head) == [] && |tail| > 0 && tail[0] == ' '
    ensures DollarRefs(head + WhereClause(conditions) + OrderClause(sort) + tail) ==
            RefsOf(conditions) + DollarRefs(sort) + DollarRefs(tail)
  {
    var where, order := WhereClause(conditions), OrderClause(sort);
    WhereRefs(conditions);
    OrderRefs(sort);
    assert CleanSeam(head, where);
    DollarRefsConcat(head, where);
    var front := head + where;
    assert DollarRefs(front) == RefsOf(conditions);
    assert CleanSeam(front, order);
    DollarRefsConcat(front, order);
    var body := front + order;
    assert DollarRefs(body) == RefsOf(conditions) + DollarRefs(sort);
    assert CleanSeam(body, tail);
    DollarRefsConcat(body, tail);
  }

  lemma SelectRefs()
    ensures DollarRefs(Select) == []
  {
    SelectDollars();
    NoDollarNoRefs(Select);
  }

  lemma WhereRefs(conditions: seq<string>)
    ensures DollarRefs(WhereClause(conditions)) == RefsOf(conditions)
    ensures WhereClause(conditions) == "" || WhereClause(conditions)[0] == ' '
  {
    if conditions != [] {
      SeparatorWords();
      NoDollarNoRefs(" WHERE ");
      NoDollarNoRefs(" AND ");
      JoinRefs(conditions, " AND ");
      DollarRefsConcat(" WHERE ", Join(conditions, " AND "));
    }
  }

  lemma OrderRefs(sort: string)
    ensures DollarRefs(OrderClause(sort)) == DollarRefs(sort)
    ensures OrderClause(sort) == "" || OrderClause(sort)[0] == ' '
  {
    if sort != "" {
      SeparatorWords();
      NoDollarNoRefs(" ORDER BY ");
      DollarRefsConcat(" ORDER BY ", sort);
    }
  }

  lemma SeparatorWords()
    ensures '$' !in " WHERE " && " WHERE "[0] == ' ' && " WHERE "[6] == ' '
    ensures '$' !in " AND " && " AND "[0] == ' ' && " AND "[4] == ' '
    ensures '$' !in " ORDER BY " && " ORDER BY "[0] == ' ' && " ORDER BY "[9] == ' '
  {
  }
}
