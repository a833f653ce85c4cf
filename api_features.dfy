// The query translator: `APIFeatures` turns the parsed query string of a
// list request into a chain of calls on a document-database query
// (`find`, `sort`, `select`, `skip`, `limit`). The database query itself is
// modelled by `Query`, which only records the calls made on it.

module ApiFeatures {
  import opened JsText
  import opened OperatorRewrite

  /** The keys `filter` deletes, in the order it deletes them. */
  const Excluded: seq<string> := ["page", "sort", "limit", "fields"]

  /** The same keys as a set: they belong to the other three stages. */
  const ReservedKeys: set<string> := set k | k in Excluded

  /** One call made on the database query. */
  datatype QueryOp =
    | Find(filter: map<string, Value>)
    | Sort(keys: string)
    | Select(fields: string)
    | Skip(count: int)
    | Limit(count: int)

  /** A query handle: every call appends to `ops` and returns the handle. */
  class Query {
    var ops: seq<QueryOp>

    constructor(ops: seq<QueryOp>)
      ensures this.ops == ops
    {
      this.ops := ops;
    }

    method Find(filter: map<string, Value>) returns (q: Query)
      modifies this
      ensures q == this && ops == old(ops) + [QueryOp.Find(filter)]
    {
      ops := ops + [QueryOp.Find(filter)];
      q := this;
    }

    method Sort(keys: string) returns (q: Query)
      modifies this
      ensures q == this && ops == old(ops) + [QueryOp.Sort(keys)]
    {
      ops := ops + [QueryOp.Sort(keys)];
      q := this;
    }

    method Select(fields: string) returns (q: Query)
      modifies this
      ensures q == this && ops == old(ops) + [QueryOp.Select(fields)]
    {
      ops := ops + [QueryOp.Select(fields)];
      q := this;
    }

    method Skip(count: int) returns (q: Query)
      modifies this
      ensures q == this && ops == old(ops) + [QueryOp.Skip(count)]
    {
      ops := ops + [QueryOp.Skip(count)];
      q := this;
    }

    method Limit(count: int) returns (q: Query)
      modifies this
      ensures q == this && ops == old(ops) + [QueryOp.Limit(count)]
    {
      ops := ops + [QueryOp.Limit(count)];
      q := this;
    }
  }

  // ---------------------------------------------------------------------
  // What each stage hands to the query, as functions of the query string.

  function Lookup(qs: map<string, Value>, key: string): Option<Value>
  {
    if key in qs then Some(qs[key]) else None
  }

  /** JavaScript truthiness of a query-string property: a missing property
      and the empty string are falsy, every object is truthy. The request
      body's values have their own `ReviewController.Truthy`, which follows
      the same rules. */
  predicate Truthy(v: Option<Value>)
  {
    match v
    case None => false
    case Some(Str(s)) => s != ""
    case Some(Obj(_)) => true
  }

  /** The object `filter` passes to `find`: the query string without the
      reserved keys, with every operator word prefixed by `$`. */
  function FilterOf(qs: map<string, Value>): (f: map<string, Value>)
    ensures forall k :: k in ReservedKeys ==> k !in f
    ensures forall k :: k in qs && k !in ReservedKeys ==>
      Rewrite(k) in f && f[Rewrite(k)] == RewriteValue(qs[k])
    ensures forall k' :: k' in f ==>
      StripSigils(k') in qs && StripSigils(k') !in ReservedKeys && Rewrite(StripSigils(k')) == k'
  {
    var f := RewriteObject(qs - ReservedKeys);
    assert forall k :: k in ReservedKeys ==> k !in f by {
      forall k | k in ReservedKeys ensures k !in f {
        StripNoSigil(k);
      }
    }
    f
  }

  /** The argument of `sort` when the stage succeeds; `None` when the
      `sort` property is an object, whose missing `split` throws a
      TypeError. A non-empty list is split at commas and joined with two
      spaces; otherwise the newest documents come first. */
  function SortArgument(qs: map<string, Value>): (r: Option<string>)
    ensures r.None? <==> Lookup(qs, "sort").Some? && Lookup(qs, "sort").value.Obj?
    ensures !Truthy(Lookup(qs, "sort")) ==> r == Some("-createdAt")
  {
    match Lookup(qs, "sort")
    case Some(Obj(_)) => None
    case Some(Str(s)) => if s != "" then Some(Join(Split(s, ','), "  ")) else Some("-createdAt")
    case None => Some("-createdAt")
  }

  /** The argument of `select`, as `SortArgument` but joined with one
      space and defaulting to hiding the version key. */
  function SelectArgument(qs: map<string, Value>): (r: Option<string>)
    ensures r.None? <==> Lookup(qs, "fields").Some? && Lookup(qs, "fields").value.Obj?
    ensures !Truthy(Lookup(qs, "fields")) ==> r == Some("-__v")
  {
    match Lookup(qs, "fields")
    case Some(Obj(_)) => None
    case Some(Str(s)) => if s != "" then Some(Join(Split(s, ','), " ")) else Some("-__v")
    case None => Some("-__v")
  }

  /** `qs[key] * 1 || default`: the number, unless it is 0 or not a number.
      A value that reads as a non-zero number is used; otherwise the result
      is the default. */
  function NumberOr(qs: map<string, Value>, key: string, default: int): (n: int)
    ensures var v := Lookup(qs, key);
      v.Some? && v.value.Str? && ToNumber(v.value.s).Some? && ToNumber(v.value.s).value != 0 ==>
      n == ToNumber(v.value.s).value
    ensures default != 0 ==> n != 0
    ensures n == default || (Lookup(qs, key).Some? && Lookup(qs, key).value.Str? &&
                             ToNumber(Lookup(qs, key).value.s) == Some(n))
  {
    match Lookup(qs, key)
    case Some(Str(s)) =>
      (match ToNumber(s)
       case Some(n) => if n != 0 then n else default
       case None => default)
    case _ => default
  }

  function PageNumber(qs: map<string, Value>): int { NumberOr(qs, "page", 1) }

  function PageSize(qs: map<string, Value>): int { NumberOr(qs, "limit", 100) }

  function SkipCount(qs: map<string, Value>): int { (PageNumber(qs) - 1) * PageSize(qs) }

  /** What a stage returns: the translator itself, or the exception that
      escapes it. */
  datatype Chained = Returned(self: APIFeatures) | Threw(error: string)

  // ---------------------------------------------------------------------

  class APIFeatures {
    var query: Query
    var queryString: map<string, Value>

    constructor(query: Query, queryString: map<string, Value>)
      ensures this.query == query && this.queryString == queryString
    {
      this.query := query;
      this.queryString := queryString;
    }

    /** Copies the query string, deletes the reserved keys one by one,
        rewrites the operators and calls `find`. */
    method Filter() returns (self: APIFeatures)
      modifies this`query, query
      ensures self == this && query == old(query) && queryString == old(queryString)
      ensures query.ops == old(query.ops) + [QueryOp.Find(FilterOf(queryString))]
    {
      var queryObj := queryString;
      var i := 0;
      while i < |Excluded|
        invariant 0 <= i <= |Excluded|
        invariant forall k :: k in queryObj <==> k in queryString && k !in Excluded[..i]
        invariant forall k :: k in queryObj ==> queryObj[k] == queryString[k]
      {
        queryObj := queryObj - {Excluded[i]};
        i := i + 1;
      }
      assert Excluded[..i] == Excluded;
      assert queryObj == queryString - ReservedKeys;
      var filtered := RewriteObject(queryObj);
      var q := query.Find(filtered);
      query := q;
      self := this;
    }

    method Sort() returns (r: Chained)
      modifies this`query, query
      ensures query == old(query) && queryString == old(queryString)
      ensures SortArgument(queryString).Some? ==>
        r == Returned(this) && query.ops == old(query.ops) + [QueryOp.Sort(SortArgument(queryString).value)]
      ensures SortArgument(queryString).None? ==> r.Threw? && query.ops == old(query.ops)
    {
      var sort := Lookup(queryString, "sort");
      if Truthy(sort) {
        if sort.value.Obj? {
          r := Threw("TypeError: this.queryString.sort.split is not a function");
          return;
        }
        var sortBy := Join(Split(sort.value.s, ','), "  ");
        var q := query.Sort(sortBy);
        query := q;
      } else {
        var q := query.Sort("-createdAt");
        query := q;
      }
      r := Returned(this);
    }

    method LimitFields() returns (r: Chained)
      modifies this`query, query
      ensures query == old(query) && queryString == old(queryString)
      ensures SelectArgument(queryString).Some? ==>
        r == Returned(this) && query.ops == old(query.ops) + [QueryOp.Select(SelectArgument(queryString).value)]
      ensures SelectArgument(queryString).None? ==> r.Threw? && query.ops == old(query.ops)
    {
      var fields := Lookup(queryString, "fields");
      if Truthy(fields) {
        if fields.value.Obj? {
          r := Threw("TypeError: this.queryString.fields.split is not a function");
          return;
        }
        var selected := Join(Split(fields.value.s, ','), " ");
        var q := query.Select(selected);
        query := q;
      } else {
        var q := query.Select("-__v");
        query := q;
      }
      r := Returned(this);
    }

    method Paginate() returns (self: APIFeatures)
      modifies this`query, query
      ensures self == this && query == old(query) && queryString == old(queryString)
      ensures query.ops == old(query.ops) + [QueryOp.Skip(SkipCount(queryString)), QueryOp.Limit(PageSize(queryString))]
    {
      var page := NumberOr(queryString, "page", 1);
      var limit := NumberOr(queryString, "limit", 100);
      var skip := (page - 1) * limit;
      var q := query.Skip(skip);
      q := q.Limit(limit);
      query := q;
      self := this;
    }
  }

  /** The four stages chained in their fixed order on a fresh query, as a
      list handler does: filter, sort, project, paginate. The query records
      exactly one call per stage, in that order, or stops at the stage that
      throws. */
  method TranslateQuery(qs: map<string, Value>) returns (ops: seq<QueryOp>, error: Option<string>)
    ensures error.None? <==> SortArgument(qs).Some? && SelectArgument(qs).Some?
    ensures error.None? ==> ops == [
      QueryOp.Find(FilterOf(qs)),
      QueryOp.Sort(SortArgument(qs).value),
      QueryOp.Select(SelectArgument(qs).value),
      QueryOp.Skip(SkipCount(qs)),
      QueryOp.Limit(PageSize(qs))]
    ensures SortArgument(qs).None? ==> ops == [QueryOp.Find(FilterOf(qs))]
    ensures SortArgument(qs).Some? && SelectArgument(qs).None? ==>
      ops == [QueryOp.Find(FilterOf(qs)), QueryOp.Sort(SortArgument(qs).value)]
  {
    var query := new Query([]);
    var features := new APIFeatures(query, qs);
    var _ := features.Filter();
    assert features.query == query && features.queryString == qs;
    assert query.ops == [QueryOp.Find(FilterOf(qs))];
    var sorted := features.Sort();
    if sorted.Threw? {
      return query.ops, Some(sorted.error);
    }
    assert query.ops == [QueryOp.Find(FilterOf(qs)), QueryOp.Sort(SortArgument(qs).value)];
    var projected := features.LimitFields();
    if projected.Threw? {
      return query.ops, Some(projected.error);
    }
    assert features.query == query && features.queryString == qs;
    assert query.ops == [QueryOp.Find(FilterOf(qs)), QueryOp.Sort(SortArgument(qs).value), QueryOp.Select(SelectArgument(qs).value)];
    var _ := features.Paginate();
    ops, error := query.ops, None;
  }

  // ---------------------------------------------------------------------
  // Properties of the stages.

  /** A non-empty `sort` list keeps its fields in their original order:
      the argument is the list with every comma replaced by two spaces,
      and the split pieces joined back with commas are the list itself. */
  lemma {:induction false} SortKeepsFieldOrder(qs: map<string, Value>, s: string)
    requires Lookup(qs, "sort") == Some(Str(s)) && s != ""
    ensures SortArgument(qs) == Some(ReplaceChar(s, ',', "  "))
    ensures Join(Split(s, ','), ",") == s
  {
    JoinSplit(s, ',', "  ");
    SplitJoinRoundTrip(s, ',');
  }

  /** A non-empty `fields` list becomes the same list separated by single
      spaces. */
  lemma {:induction false} SelectKeepsFieldOrder(qs: map<string, Value>, s: string)
    requires Lookup(qs, "fields") == Some(Str(s)) && s != ""
    ensures SelectArgument(qs) == Some(ReplaceChar(s, ',', " "))
  {
    JoinSplit(s, ',', " ");
  }

  /** A page written as a non-zero integer is used as it is, whatever the
      page size. */
  lemma {:induction false} PageNumberUsed(qs: map<string, Value>, page: int)
    requires page != 0
    requires Lookup(qs, "page") == Some(Str(DecimalString(page)))
    ensures PageNumber(qs) == page
  {
    ToNumberDecimal(page);
  }

  /** A page size written as a non-zero integer is used as it is, whatever
      the page. */
  lemma {:induction false} PageSizeUsed(qs: map<string, Value>, limit: int)
    requires limit != 0
    requires Lookup(qs, "limit") == Some(Str(DecimalString(limit)))
    ensures PageSize(qs) == limit
  {
    ToNumberDecimal(limit);
  }

  /** A page and a page size written as non-zero integers are used as they
      are, without clamping: skip is (page - 1) * limit, negative for a
      negative page. */
  lemma {:induction false} PaginationUsesNumbers(qs: map<string, Value>, page: int, limit: int)
    requires page != 0 && limit != 0
    requires Lookup(qs, "page") == Some(Str(DecimalString(page)))
    requires Lookup(qs, "limit") == Some(Str(DecimalString(limit)))
    ensures PageNumber(qs) == page && PageSize(qs) == limit
    ensures SkipCount(qs) == (page - 1) * limit
  {
    PageNumberUsed(qs, page);
    PageSizeUsed(qs, limit);
  }

  /** A page without a page size, such as `?page=2`, skips the earlier
      pages of 100 documents each. */
  lemma {:induction false} PageWithoutLimit(qs: map<string, Value>, page: int)
    requires page != 0
    requires Lookup(qs, "page") == Some(Str(DecimalString(page)))
    requires "limit" !in qs
    ensures PageSize(qs) == 100 && SkipCount(qs) == (page - 1) * 100
  {
    PageNumberUsed(qs, page);
  }

  /** Missing, empty, zero and non-numeric values fall back to page 1 and
      100 documents per page. */
  lemma {:induction false} PaginationDefaults(qs: map<string, Value>)
    requires forall key :: key in ["page", "limit"] && key in qs ==>
      qs[key].Obj? || ToNumber(qs[key].s) == None || ToNumber(qs[key].s) == Some(0)
    ensures PageNumber(qs) == 1 && PageSize(qs) == 100 && SkipCount(qs) == 0
  {
    assert "page" in ["page", "limit"] && "limit" in ["page", "limit"];
  }

  /** An example list request
      `?duration[gte]=10&sort=-price&fields=name,price&page=2&limit=5`. */
  function ExampleQueryString(): map<string, Value>
  {
    map[
      "duration" := Obj(map["gte" := Str("10")]),
      "sort" := Str("-price"),
      "fields" := Str("name,price"),
      "page" := Str("2"),
      "limit" := Str("5")]
  }

  /** A word of letters, digits and underscores that is not an operator. */
  predicate PlainWord(w: string)
  {
    |w| > 0 && (forall i :: 0 <= i < |w| ==> IsWordChar(w[i])) && w !in Operators
  }

  /** A comparison such as `duration[gte]=10` reaches `find` as
      `{duration: {$gte: "10"}}`; the reserved keys beside it are gone. */
  lemma {:induction false} FilterComparison(qs: map<string, Value>, field: string, op: string, value: string)
    requires PlainWord(field) && PlainWord(value) && op in Operators
    requires qs - ReservedKeys == map[field := Obj(map[op := Str(value)])]
    ensures FilterOf(qs) == map[field := Obj(map["$" + op := Str(value)])]
  {
    OperatorsAreWords();
    RewriteWord(field);
    RewriteWord(op);
    RewriteWord(value);
    RewriteSingleton(op, Str(value));
    RewriteSingleton(field, Obj(map[op := Str(value)]));
  }

  /** The example request sorts by descending price. */
  lemma ExampleSort()
    ensures SortArgument(ExampleQueryString()) == Some("-price")
  {
    SortKeepsFieldOrder(ExampleQueryString(), "-price");
  }

  /** Two field names, such as `fields=name,price`, are projected as
      `name price`. */
  lemma {:induction false} ProjectTwoFields(qs: map<string, Value>, a: string, b: string)
    requires ',' !in a && ',' !in b
    requires Lookup(qs, "fields") == Some(Str(a + "," + b))
    ensures SelectArgument(qs) == Some(a + " " + b)
  {
    SelectKeepsFieldOrder(qs, a + "," + b);
    ReplaceCharConcat(a + ",", b, ',', " ");
    ReplaceCharConcat(a, ",", ',', " ");
    ReplaceCharAbsent(a, ',', " ");
    ReplaceCharAbsent(b, ',', " ");
    assert ReplaceChar(",", ',', " ") == " ";
  }

  /** The example request asks for the second page of five documents. */
  lemma ExamplePagination()
    ensures SkipCount(ExampleQueryString()) == 5 && PageSize(ExampleQueryString()) == 5
  {
    assert DecimalString(2) == "2" && DecimalString(5) == "5";
    PaginationUsesNumbers(ExampleQueryString(), 2, 5);
  }
}
