/** The property search of the data-access layer: from a sparse options record
    and a result limit it builds one parameterized SQL query, that is a SQL text
    whose `$k` placeholders refer to the k-th entry of an ordered parameter list.

    The text is modelled as a sequence of clauses; `Render` writes the clauses
    out as the exact SQL text, so properties are stated on the clauses and the
    parameters, and the text follows from them. */
module PropertySearch {
  import opened JsValues
  import opened SqlText

  /** The search criteria; every field may be missing. */
  datatype Options = Options(
    city: Js<string>,
    ownerId: Js<int>,
    minimumPricePerNight: Js<int>,      // in major currency units
    maximumPricePerNight: Js<int>,      // in major currency units
    minimumRating: Js<int>)

  /** The predicates that can appear under WHERE, in the order they are tried. */
  datatype Pred = CityLike | OwnerIdEquals | CostAtLeast | CostAtMost

  /** How a WHERE predicate is joined to the text before it. */
  datatype Connective = Where | And

  /** One piece of the SQL text; `slot` is the placeholder number `$slot`. */
  datatype Clause =
    | SelectFrom
    | Condition(conn: Connective, pred: Pred, slot: nat)
    | WhereTrue
    | GroupBy
    | Having(slot: nat)
    | OrderByLimit(slot: nat)

  /** A WHERE predicate together with the value bound to its placeholder. */
  datatype Filter = Filter(pred: Pred, value: Param)

  /** A built query: the clauses of its text and its positional parameters. */
  datatype Query = Query(clauses: seq<Clause>, params: seq<Param>)

  /** The limit used when the caller passes none. */
  const DefaultLimit := 10

  // ---------------------------------------------------------------------------
  // The SQL text

  function ConnectiveText(c: Connective): string {
    match c
    case Where => "WHERE"
    case And => " AND"
  }

  function PredText(p: Pred): string {
    match p
    case CityLike => "city LIKE"
    case OwnerIdEquals => "owner_id ="
    case CostAtLeast => "cost_per_night >="
    case CostAtMost => "cost_per_night <="
  }

  function Placeholder(k: nat): string {
    "$" + NatToString(k)
  }

  const SelectText: string :=
    "\n  SELECT properties.*, avg(property_reviews.rating) as average_rating\n"
    + "  FROM properties\n"
    + "  JOIN property_reviews ON properties.id = property_id\n  "
  const GroupByText: string := "\n  GROUP BY properties.id\n  "
  const HavingText: string := " HAVING AVG(property_reviews.rating) >= "
  const OrderByText: string := "\n  ORDER BY cost_per_night\n  LIMIT "

  /** The text each clause appends to the query string. */
  function ClauseText(c: Clause): string {
    match c
    case SelectFrom => SelectText
    case Condition(conn, p, k) =>
      // only the city predicate is written with a trailing blank
      ConnectiveText(conn) + " " + PredText(p) + " " + Placeholder(k)
      + (if p == CityLike then " " else "")
    case WhereTrue => "WHERE TRUE"
    case GroupBy => GroupByText
    case Having(k) => HavingText + Placeholder(k)
    case OrderByLimit(k) => OrderByText + Placeholder(k) + ";\n  "
  }

  /** The SQL text of a clause sequence: the clause texts one after another. */
  function Render(cs: seq<Clause>): string {
    if cs == [] then "" else Render(cs[..|cs| - 1]) + ClauseText(cs[|cs| - 1])
  }

  // ---------------------------------------------------------------------------
  // The reference definition: a list of fired filters folded into clauses and
  // parameters.

  /** Whether predicate p is added: a truthiness test on its option. */
  predicate Fires(o: Options, p: Pred) {
    match p
    case CityLike => TruthyString(o.city)
    case OwnerIdEquals => TruthyNumber(o.ownerId)
    case CostAtLeast => TruthyNumber(o.minimumPricePerNight)
    case CostAtMost => TruthyNumber(o.maximumPricePerNight)
  }

  /** The value bound for predicate p: the city wrapped in `%` wildcards, the
      owner as text, and the prices converted to cents, as text. */
  function FilterValue(o: Options, p: Pred): Param
    requires Fires(o, p)
  {
    match p
    case CityLike => Str("%" + o.city.v + "%")
    case OwnerIdEquals => TemplateText(o.ownerId)
    case CostAtLeast => NumStr(o.minimumPricePerNight.v * 100)
    case CostAtMost => NumStr(o.maximumPricePerNight.v * 100)
  }

  function FilterIf(o: Options, p: Pred): seq<Filter> {
    if Fires(o, p) then [Filter(p, FilterValue(o, p))] else []
  }

  /** The WHERE predicates that fire, in the order they are tried. */
  function WhereFilters(o: Options): seq<Filter> {
    FilterIf(o, CityLike) + FilterIf(o, OwnerIdEquals)
    + FilterIf(o, CostAtLeast) + FilterIf(o, CostAtMost)
  }

  /** The limit after the default parameter `limit = 10` is applied, which
      replaces only `undefined`. */
  function LimitValue(limit: Js<int>): Param {
    match limit
    case Undefined => Num(DefaultLimit)
    case Null => NullValue
    case Defined(n) => Num(n)
  }

  /** The values of a filter list, in order. */
  function Values(fs: seq<Filter>): (ps: seq<Param>)
    ensures |ps| == |fs|
    ensures forall i :: 0 <= i < |fs| ==> ps[i] == fs[i].value
  {
    if fs == [] then [] else Values(fs[..|fs| - 1]) + [fs[|fs| - 1].value]
  }

  /** The WHERE predicates of a filter list: each one is numbered by the count
      of values bound so far, and all but the first are joined with AND. */
  function Conditions(fs: seq<Filter>): (cs: seq<Clause>)
    ensures |cs| == |fs|
    ensures forall i :: 0 <= i < |fs| ==>
      cs[i] == Condition(if i == 0 then Where else And, fs[i].pred, i + 1)
  {
    if fs == [] then [] else
      Conditions(fs[..|fs| - 1])
      + [Condition(if |fs| == 1 then Where else And, fs[|fs| - 1].pred, |fs|)]
  }

  /** The query made of the WHERE filters `fs` that fired, the minimum rating
      and the limit: the filters are folded into numbered predicates and their
      values, followed by the rating and the limit. */
  function Assemble(fs: seq<Filter>, minimumRating: Js<int>, limit: Js<int>): Query {
    var rating := if minimumRating.Undefined? then [] else [TemplateText(minimumRating)];
    var params := Values(fs) + rating + [LimitValue(limit)];
    var whereClauses := if fs == [] then [WhereTrue] else Conditions(fs);
    var havingClauses := if minimumRating.Undefined? then [] else [Having(|fs| + 1)];
    Query([SelectFrom] + whereClauses + [GroupBy] + havingClauses + [OrderByLimit(|params|)],
          params)
  }

  /** The query the search builds for the given options and limit. */
  function SearchQuery(o: Options, limit: Js<int>): Query {
    Assemble(WhereFilters(o), o.minimumRating, limit)
  }

  // ---------------------------------------------------------------------------
  // The builder, step by step

  /** The parts an assembled query is made of, one after the other. */
  lemma AssembleParts(fs: seq<Filter>, r: Js<int>, limit: Js<int>)
    ensures var q := Assemble(fs, r, limit);
      var rating := if r.Undefined? then [] else [TemplateText(r)];
      var havingClauses := if r.Undefined? then [] else [Having(|fs| + 1)];
      var whereClauses := if fs == [] then [WhereTrue] else Conditions(fs);
      q.params == Values(fs) + rating + [LimitValue(limit)]
      && q.clauses == [SelectFrom] + whereClauses + [GroupBy] + havingClauses + [OrderByLimit(|q.params|)]
  {
  }

  /** What the builder holds once the filters `fired` have been added. */
  ghost predicate Built(clauses: seq<Clause>, params: seq<Param>, fired: seq<Filter>, whereAdded: bool) {
    clauses == [SelectFrom] + Conditions(fired)
    && params == Values(fired)
    && whereAdded == (fired != [])
  }

  /** Adding one more filter: its value is pushed, and its predicate is
      numbered by the new length of the parameter list. */
  lemma PushFilter(clauses: seq<Clause>, params: seq<Param>, fired: seq<Filter>, whereAdded: bool, f: Filter)
    requires Built(clauses, params, fired, whereAdded)
    ensures Built(clauses + [Condition(if whereAdded then And else Where, f.pred, |params| + 1)],
                  params + [f.value], fired + [f], true)
  {
    assert (fired + [f])[..|fired|] == fired;
  }

  lemma RenderSnoc(cs: seq<Clause>, c: Clause)
    ensures Render(cs + [c]) == Render(cs) + ClauseText(c)
  {
    assert (cs + [c])[..|cs|] == cs;
  }

  /** One filter step of the builder, `if (options.x) { ... }`: when the
      option is set, push its value, then append its predicate, introduced by
      WHERE if it is the first and by AND otherwise, with the new length of the
      parameter list as its placeholder number. */
  method FilterStep(options: Options, p: Pred, queryString: string, queryParams: seq<Param>,
                    whereAdded: bool, ghost clauses: seq<Clause>, ghost fired: seq<Filter>)
    returns (text: string, params: seq<Param>, added: bool,
             ghost clauses': seq<Clause>, ghost fired': seq<Filter>)
    requires Built(clauses, queryParams, fired, whereAdded) && queryString == Render(clauses)
    ensures Built(clauses', params, fired', added) && text == Render(clauses')
    ensures fired' == fired + FilterIf(options, p)
  {
    if Fires(options, p) {
      var f := Filter(p, FilterValue(options, p));
      params := queryParams + [f.value];
      var c := Condition(if whereAdded then And else Where, p, |params|);
      PushFilter(clauses, queryParams, fired, whereAdded, f);
      RenderSnoc(clauses, c);
      text, clauses' := queryString + ClauseText(c), clauses + [c];
      added, fired' := true, fired + [f];
    } else {
      text, params, added, clauses', fired' := queryString, queryParams, whereAdded, clauses, fired;
    }
  }

  /** The first part of the builder: from the SELECT text and no parameters,
      the four WHERE filters are tried in order. */
  method AddWhereFilters(options: Options)
    returns (queryString: string, queryParams: seq<Param>, whereAdded: bool,
             ghost clauses: seq<Clause>, ghost fired: seq<Filter>)
    ensures Built(clauses, queryParams, fired, whereAdded) && queryString == Render(clauses)
    ensures fired == WhereFilters(options)
  {
    queryParams := [];
    queryString := ClauseText(SelectFrom);
    clauses, fired := [SelectFrom], [];
    RenderSnoc([], SelectFrom);
    whereAdded := false;
    queryString, queryParams, whereAdded, clauses, fired :=
      FilterStep(options, CityLike, queryString, queryParams, whereAdded, clauses, fired);
    queryString, queryParams, whereAdded, clauses, fired :=
      FilterStep(options, OwnerIdEquals, queryString, queryParams, whereAdded, clauses, fired);
    queryString, queryParams, whereAdded, clauses, fired :=
      FilterStep(options, CostAtLeast, queryString, queryParams, whereAdded, clauses, fired);
    queryString, queryParams, whereAdded, clauses, fired :=
      FilterStep(options, CostAtMost, queryString, queryParams, whereAdded, clauses, fired);
  }

  /** Closes the WHERE part: `WHERE TRUE` when no predicate was added, so that
      the text always has a WHERE, then GROUP BY. */
  method CloseWhere(queryString: string, whereAdded: bool, ghost clauses: seq<Clause>)
    returns (text: string, ghost clauses': seq<Clause>)
    requires queryString == Render(clauses)
    ensures text == Render(clauses')
    ensures clauses' == clauses + (if whereAdded then [] else [WhereTrue]) + [GroupBy]
  {
    text, clauses' := queryString, clauses;
    if !whereAdded {
      RenderSnoc(clauses', WhereTrue);
      text, clauses' := text + ClauseText(WhereTrue), clauses' + [WhereTrue];
    }
    RenderSnoc(clauses', GroupBy);
    text, clauses' := text + ClauseText(GroupBy), clauses' + [GroupBy];
  }

  /** The HAVING step: a minimum rating that is not `undefined` is pushed, as a
      template literal writes it, and compared with the average rating. */
  method AddHaving(minimumRating: Js<int>, queryString: string, queryParams: seq<Param>,
                   ghost clauses: seq<Clause>)
    returns (text: string, params: seq<Param>, ghost clauses': seq<Clause>)
    requires queryString == Render(clauses)
    ensures text == Render(clauses')
    ensures params == queryParams + (if minimumRating.Undefined? then [] else [TemplateText(minimumRating)])
    ensures clauses' == clauses + (if minimumRating.Undefined? then [] else [Having(|params|)])
  {
    text, params, clauses' := queryString, queryParams, clauses;
    if minimumRating != Undefined {
      params := params + [TemplateText(minimumRating)];
      var c := Having(|params|);
      RenderSnoc(clauses', c);
      text, clauses' := text + ClauseText(c), clauses' + [c];
    }
  }

  /** The last step: the limit is pushed and the LIMIT placeholder is the
      length of the parameter list. */
  method AddLimit(limitValue: Param, queryString: string, queryParams: seq<Param>,
                  ghost clauses: seq<Clause>)
    returns (text: string, params: seq<Param>, ghost clauses': seq<Clause>)
    requires queryString == Render(clauses)
    ensures text == Render(clauses')
    ensures params == queryParams + [limitValue]
    ensures clauses' == clauses + [OrderByLimit(|params|)]
  {
    params := queryParams + [limitValue];
    var c := OrderByLimit(|params|);
    RenderSnoc(clauses, c);
    text, clauses' := queryString + ClauseText(c), clauses + [c];
  }

  /** Builds the text and the parameters of the search query, pushing onto the
      parameter list and appending to the text one predicate at a time. */
  method GetAllProperties(options: Options, limit: Js<int>)
    returns (queryString: string, queryParams: seq<Param>)
    ensures queryString == Render(SearchQuery(options, limit).clauses)
    ensures queryParams == SearchQuery(options, limit).params
  {
    var limitValue := LimitValue(limit);  // the default parameter `limit = 10`
    var whereAdded;
    ghost var clauses, fired;
    queryString, queryParams, whereAdded, clauses, fired := AddWhereFilters(options);
    ghost var whereClauses := if fired == [] then [WhereTrue] else Conditions(fired);
    assert clauses + (if whereAdded then [] else [WhereTrue]) == [SelectFrom] + whereClauses;
    queryString, clauses := CloseWhere(queryString, whereAdded, clauses);
    ghost var grouped := clauses;
    queryString, queryParams, clauses := AddHaving(options.minimumRating, queryString, queryParams, clauses);
    queryString, queryParams, clauses := AddLimit(limitValue, queryString, queryParams, clauses);
    AssembleParts(fired, options.minimumRating, limit);
    assert grouped == [SelectFrom] + whereClauses + [GroupBy];
  }
}
