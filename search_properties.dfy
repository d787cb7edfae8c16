/** What the property search guarantees about every query it builds: the
    placeholders number the parameters in order, each placeholder is bound to
    the value of its own predicate, the limit comes last, there is exactly one
    WHERE, the predicates keep a fixed order, and falsy filters add nothing
    while a minimum rating of 0 still adds its HAVING predicate. */
module SearchProperties {
  import opened JsValues
  import opened PropertySearch

  // ---------------------------------------------------------------------------
  // Vocabulary

  function CountIf(b: bool): nat {
    if b then 1 else 0
  }

  /** How many predicates the options add: the four WHERE filters that are
      truthy and a minimum rating that is not `undefined`. */
  function FiredCount(o: Options): nat {
    CountIf(TruthyString(o.city)) + CountIf(TruthyNumber(o.ownerId))
    + CountIf(TruthyNumber(o.minimumPricePerNight)) + CountIf(TruthyNumber(o.maximumPricePerNight))
    + CountIf(!o.minimumRating.Undefined?)
  }

  /** The position of each WHERE predicate in the order they are tried. */
  function Rank(p: Pred): nat {
    match p
    case CityLike => 0
    case OwnerIdEquals => 1
    case CostAtLeast => 2
    case CostAtMost => 3
  }

  /** The placeholder numbers a clause writes. */
  function ClauseSlots(c: Clause): seq<nat> {
    match c
    case Condition(_, _, k) => [k]
    case Having(k) => [k]
    case OrderByLimit(k) => [k]
    case _ => []
  }

  /** The placeholder numbers of a clause sequence, in the order they appear in
      its text. */
  function Slots(cs: seq<Clause>): seq<nat> {
    if cs == [] then [] else ClauseSlots(cs[0]) + Slots(cs[1..])
  }

  /** The clause that introduces the WHERE part of the text. */
  predicate OpensWhere(c: Clause) {
    c == WhereTrue || (c.Condition? && c.conn == Where)
  }

  // ---------------------------------------------------------------------------
  // Facts about the fired filters

  /** Every fired filter fired, and carries the value of its predicate. */
  lemma WhereFiltersFire(o: Options)
    ensures forall j :: 0 <= j < |WhereFilters(o)| ==>
      Fires(o, WhereFilters(o)[j].pred) && WhereFilters(o)[j].value == FilterValue(o, WhereFilters(o)[j].pred)
  {
    var a, b, c, d := FilterIf(o, CityLike), FilterIf(o, OwnerIdEquals), FilterIf(o, CostAtLeast), FilterIf(o, CostAtMost);
    var fs := WhereFilters(o);
    forall j | 0 <= j < |fs|
      ensures Fires(o, fs[j].pred) && fs[j].value == FilterValue(o, fs[j].pred)
    {
      if j < |a| { assert fs[j] == a[j]; }
      else if j < |a| + |b| { assert fs[j] == b[j - |a|]; }
      else if j < |a| + |b| + |c| { assert fs[j] == c[j - |a| - |b|]; }
      else { assert fs[j] == d[j - |a| - |b| - |c|]; }
    }
  }

  /** The fired filters are in the order they are tried, each at most once. */
  lemma WhereFiltersOrdered(o: Options)
    ensures forall i, j :: 0 <= i < j < |WhereFilters(o)| ==>
      Rank(WhereFilters(o)[i].pred) < Rank(WhereFilters(o)[j].pred)
  {
    var a, b, c, d := FilterIf(o, CityLike), FilterIf(o, OwnerIdEquals), FilterIf(o, CostAtLeast), FilterIf(o, CostAtMost);
    var fs := WhereFilters(o);
    // the rank of a filter is bounded by the block it comes from
    forall j | 0 <= j < |fs|
      ensures (j < |a| ==> Rank(fs[j].pred) == 0)
      ensures (j >= |a| ==> Rank(fs[j].pred) >= 1)
      ensures (j >= |a| + |b| ==> Rank(fs[j].pred) >= 2)
      ensures (j >= |a| + |b| + |c| ==> Rank(fs[j].pred) == 3)
      ensures (j < |a| + |b| ==> Rank(fs[j].pred) <= 1)
      ensures (j < |a| + |b| + |c| ==> Rank(fs[j].pred) <= 2)
    {
      if j < |a| { assert fs[j] == a[j]; }
      else if j < |a| + |b| { assert fs[j] == b[j - |a|]; }
      else if j < |a| + |b| + |c| { assert fs[j] == c[j - |a| - |b|]; }
      else { assert fs[j] == d[j - |a| - |b| - |c|]; }
    }
  }

  /** A WHERE predicate fires exactly when the options say so. */
  lemma WhereFiltersIff(o: Options, p: Pred)
    ensures Fires(o, p) <==> exists j :: 0 <= j < |WhereFilters(o)| && WhereFilters(o)[j].pred == p
  {
    var a, b, c, d := FilterIf(o, CityLike), FilterIf(o, OwnerIdEquals), FilterIf(o, CostAtLeast), FilterIf(o, CostAtMost);
    var fs := WhereFilters(o);
    WhereFiltersFire(o);
    if Fires(o, p) {
      var j := match p
        case CityLike => 0
        case OwnerIdEquals => |a|
        case CostAtLeast => |a| + |b|
        case CostAtMost => |a| + |b| + |c|;
      assert fs[j].pred == p;
    }
  }

  // ---------------------------------------------------------------------------
  // Placeholder numbering

  lemma {:induction false} SlotsAppend(a: seq<Clause>, b: seq<Clause>)
    ensures Slots(a + b) == Slots(a) + Slots(b)
  {
    if a == [] {
      assert a + b == b;
    } else {
      assert (a + b)[0] == a[0] && (a + b)[1..] == a[1..] + b;
      SlotsAppend(a[1..], b);
    }
  }

  /** The predicates folded from n filters write the placeholders $1 .. $n. */
  lemma {:induction false} SlotsOfConditions(fs: seq<Filter>)
    ensures |Slots(Conditions(fs))| == |fs|
    ensures forall i :: 0 <= i < |fs| ==> Slots(Conditions(fs))[i] == i + 1
  {
    if fs != [] {
      var init := fs[..|fs| - 1];
      var last := Condition(if |fs| == 1 then Where else And, fs[|fs| - 1].pred, |fs|);
      SlotsOfConditions(init);
      SlotsAppend(Conditions(init), [last]);
      assert Slots([last]) == [|fs|];
    }
  }

  /** The clauses and parameters of an assembled query, position by position. */
  lemma AssembleLayout(fs: seq<Filter>, r: Js<int>, limit: Js<int>)
    ensures var q := Assemble(fs, r, limit);
      var w := if fs == [] then 1 else |fs|;
      |q.params| == |fs| + CountIf(!r.Undefined?) + 1
      && |q.clauses| == w + 3 + CountIf(!r.Undefined?)
      && q.clauses[0] == SelectFrom
      && (fs == [] ==> q.clauses[1] == WhereTrue)
      && (forall i :: 1 <= i <= |fs| ==>
            q.clauses[i] == Condition(if i == 1 then Where else And, fs[i - 1].pred, i)
            && q.params[i - 1] == fs[i - 1].value)
      && q.clauses[w + 1] == GroupBy
      && (!r.Undefined? ==> q.clauses[w + 2] == Having(|fs| + 1) && q.params[|fs|] == TemplateText(r))
      && q.clauses[|q.clauses| - 1] == OrderByLimit(|q.params|)
      && q.params[|q.params| - 1] == LimitValue(limit)
  {
    var q := Assemble(fs, r, limit);
    var w := if fs == [] then 1 else |fs|;
    var whereClauses := if fs == [] then [WhereTrue] else Conditions(fs);
    var havingClauses := if r.Undefined? then [] else [Having(|fs| + 1)];
    assert q.clauses == [SelectFrom] + whereClauses + [GroupBy] + havingClauses + [OrderByLimit(|q.params|)];
    forall i | 1 <= i <= |fs|
      ensures q.clauses[i] == Conditions(fs)[i - 1]
    {
    }
  }

  /** Which kind of clause stands at each position of an assembled query. */
  lemma AssembleKinds(fs: seq<Filter>, r: Js<int>, limit: Js<int>)
    ensures var cs := Assemble(fs, r, limit).clauses;
      var w := if fs == [] then 1 else |fs|;
      forall i :: 0 <= i < |cs| ==>
        (cs[i].Condition? <==> 1 <= i <= |fs|)
        && (cs[i] == WhereTrue <==> fs == [] && i == 1)
        && (cs[i] == GroupBy <==> i == w + 1)
        && (cs[i].Having? <==> !r.Undefined? && i == w + 2)
        && (cs[i].OrderByLimit? <==> i == |cs| - 1)
  {
    var cs := Assemble(fs, r, limit).clauses;
    var w := if fs == [] then 1 else |fs|;
    AssembleLayout(fs, r, limit);
    forall i | 0 <= i < |cs|
      ensures cs[i].Condition? <==> 1 <= i <= |fs|
      ensures cs[i] == WhereTrue <==> fs == [] && i == 1
      ensures cs[i] == GroupBy <==> i == w + 1
      ensures cs[i].Having? <==> !r.Undefined? && i == w + 2
      ensures cs[i].OrderByLimit? <==> i == |cs| - 1
    {
      if i == 0 || (fs == [] && i == 1) || i == w + 1 {
      } else if i <= |fs| {
      } else if !r.Undefined? && i == w + 2 {
      } else {
        assert i == |cs| - 1;
      }
    }
  }

  /** The WHERE part and GROUP BY of an assembled query write the placeholders
      of its WHERE predicates, $1 .. $n for n filters. */
  lemma SlotsOfWherePart(fs: seq<Filter>)
    ensures var whereClauses := if fs == [] then [WhereTrue] else Conditions(fs);
      Slots([SelectFrom] + whereClauses + [GroupBy]) == Slots(Conditions(fs))
  {
    var whereClauses := if fs == [] then [WhereTrue] else Conditions(fs);
    var front := [SelectFrom] + whereClauses;
    SlotsAppend([SelectFrom], whereClauses);
    SlotsAppend(front, [GroupBy]);
    assert Slots([SelectFrom]) == [] && Slots([GroupBy]) == [];
    assert Slots(whereClauses) == Slots(Conditions(fs)) by {
      if fs == [] {
        assert Slots([WhereTrue]) == [];
      }
    }
    var ws := Slots(whereClauses);
    assert [] + ws + [] == ws;
  }

  lemma SlotsSnoc(cs: seq<Clause>, c: Clause)
    ensures Slots(cs + [c]) == Slots(cs) + ClauseSlots(c)
  {
    SlotsAppend(cs, [c]);
    assert [c][1..] == [];
  }

  /** The placeholders of an assembled query number its parameters in order. */
  lemma AssembleSlots(fs: seq<Filter>, r: Js<int>, limit: Js<int>)
    ensures var q := Assemble(fs, r, limit);
      |Slots(q.clauses)| == |q.params|
      && forall i :: 0 <= i < |q.params| ==> Slots(q.clauses)[i] == i + 1
  {
    var q := Assemble(fs, r, limit);
    var whereClauses := if fs == [] then [WhereTrue] else Conditions(fs);
    var prefix := [SelectFrom] + whereClauses + [GroupBy];
    var last := OrderByLimit(|q.params|);
    SlotsOfWherePart(fs);
    SlotsOfConditions(fs);
    if r.Undefined? {
      assert q.clauses == prefix + [last];
      SlotsSnoc(prefix, last);
    } else {
      assert q.clauses == prefix + [Having(|fs| + 1)] + [last];
      SlotsSnoc(prefix, Having(|fs| + 1));
      SlotsSnoc(prefix + [Having(|fs| + 1)], last);
    }
  }

  /** Placeholder alignment, first half: reading the text from left to right,
      the placeholders are $1, $2, ..., $n, where n is the number of parameters,
      so each parameter is referred to exactly once, and in order. */
  lemma PlaceholdersNumberParameters(o: Options, limit: Js<int>)
    ensures var q := SearchQuery(o, limit);
      |Slots(q.clauses)| == |q.params|
      && forall i :: 0 <= i < |q.params| ==> Slots(q.clauses)[i] == i + 1
  {
    AssembleSlots(WhereFilters(o), o.minimumRating, limit);
  }

  lemma ConditionPlaceholdersBind(o: Options, limit: Js<int>)
    ensures var q := SearchQuery(o, limit);
      forall i :: 0 <= i < |q.clauses| && q.clauses[i].Condition? ==>
        Fires(o, q.clauses[i].pred) && 1 <= q.clauses[i].slot <= |q.params|
        && q.params[q.clauses[i].slot - 1] == FilterValue(o, q.clauses[i].pred)
  {
    var fs, r := WhereFilters(o), o.minimumRating;
    AssembleLayout(fs, r, limit);
    AssembleKinds(fs, r, limit);
    WhereFiltersFire(o);
  }

  lemma HavingPlaceholderBinds(o: Options, limit: Js<int>)
    ensures var q := SearchQuery(o, limit);
      forall i :: 0 <= i < |q.clauses| && q.clauses[i].Having? ==>
        !o.minimumRating.Undefined? && 1 <= q.clauses[i].slot <= |q.params|
        && q.params[q.clauses[i].slot - 1] == TemplateText(o.minimumRating)
  {
    var fs, r := WhereFilters(o), o.minimumRating;
    AssembleLayout(fs, r, limit);
    AssembleKinds(fs, r, limit);
  }

  lemma LimitPlaceholderBinds(o: Options, limit: Js<int>)
    ensures var q := SearchQuery(o, limit);
      forall i :: 0 <= i < |q.clauses| && q.clauses[i].OrderByLimit? ==>
        q.clauses[i].slot == |q.params| && q.params[q.clauses[i].slot - 1] == LimitValue(limit)
  {
    var fs, r := WhereFilters(o), o.minimumRating;
    AssembleLayout(fs, r, limit);
    AssembleKinds(fs, r, limit);
  }

  /** Placeholder alignment, second half: the placeholder of every predicate
      refers to the value that predicate pushed: the city pattern, the owner,
      the prices in cents, the minimum rating and the limit. */
  lemma PlaceholdersBindTheirValues(o: Options, limit: Js<int>)
    ensures var q := SearchQuery(o, limit);
      forall i :: 0 <= i < |q.clauses| && q.clauses[i].Condition? ==>
        Fires(o, q.clauses[i].pred) && 1 <= q.clauses[i].slot <= |q.params|
        && q.params[q.clauses[i].slot - 1] == FilterValue(o, q.clauses[i].pred)
    ensures var q := SearchQuery(o, limit);
      forall i :: 0 <= i < |q.clauses| && q.clauses[i].Having? ==>
        !o.minimumRating.Undefined? && 1 <= q.clauses[i].slot <= |q.params|
        && q.params[q.clauses[i].slot - 1] == TemplateText(o.minimumRating)
    ensures var q := SearchQuery(o, limit);
      forall i :: 0 <= i < |q.clauses| && q.clauses[i].OrderByLimit? ==>
        q.clauses[i].slot == |q.params| && q.params[q.clauses[i].slot - 1] == LimitValue(limit)
  {
    ConditionPlaceholdersBind(o, limit);
    HavingPlaceholderBinds(o, limit);
    LimitPlaceholderBinds(o, limit);
  }

  /** Parameter count: one parameter per predicate that fired, plus the limit. */
  lemma ParameterCount(o: Options, limit: Js<int>)
    ensures |SearchQuery(o, limit).params| == FiredCount(o) + 1
  {
    var fs := WhereFilters(o);
    AssembleLayout(fs, o.minimumRating, limit);
    assert |fs| == |FilterIf(o, CityLike)| + |FilterIf(o, OwnerIdEquals)|
                   + |FilterIf(o, CostAtLeast)| + |FilterIf(o, CostAtMost)|;
  }

  /** The limit is the last parameter and the LIMIT placeholder is the last one,
      numbered by the total count of parameters. */
  lemma LimitIsLast(o: Options, limit: Js<int>)
    ensures var q := SearchQuery(o, limit);
      |q.params| >= 1 && q.params[|q.params| - 1] == LimitValue(limit)
      && |q.clauses| >= 1 && q.clauses[|q.clauses| - 1] == OrderByLimit(|q.params|)
  {
    AssembleLayout(WhereFilters(o), o.minimumRating, limit);
  }

  // ---------------------------------------------------------------------------
  // The shape of the text

  /** Exactly one WHERE: the clause right after the SELECT opens it, either with
      the first predicate or with `WHERE TRUE`, and no other clause does; every
      later WHERE predicate is joined with AND. */
  lemma ExactlyOneWhere(o: Options, limit: Js<int>)
    ensures var cs := SearchQuery(o, limit).clauses;
      |cs| > 1 && cs[0] == SelectFrom && OpensWhere(cs[1])
      && (forall i :: 0 <= i < |cs| && OpensWhere(cs[i]) ==> i == 1)
      && (forall i :: 1 < i < |cs| && cs[i].Condition? ==> cs[i].conn == And)
      && (cs[1] == WhereTrue <==> WhereFilters(o) == [])
  {
    var fs, r := WhereFilters(o), o.minimumRating;
    AssembleLayout(fs, r, limit);
    AssembleKinds(fs, r, limit);
  }

  /** Fixed clause order: the WHERE part, then a single GROUP BY, then the
      optional HAVING, then ORDER BY ... LIMIT, which is last. */
  lemma ClauseKindsInOrder(o: Options, limit: Js<int>)
    ensures var cs := SearchQuery(o, limit).clauses;
      (exists g :: 0 <= g < |cs| && cs[g] == GroupBy)
      && (forall i, g :: 0 <= i < |cs| && 0 <= g < |cs| && cs[g] == GroupBy
            && (OpensWhere(cs[i]) || cs[i].Condition?)
            ==> i < g)
      && (forall g, h :: 0 <= g < |cs| && 0 <= h < |cs| && cs[g] == GroupBy && cs[h].Having? ==> g < h)
      && (forall g, h :: 0 <= g < |cs| && 0 <= h < |cs| && cs[g] == GroupBy && cs[h] == GroupBy ==> g == h)
      && (forall i :: 0 <= i < |cs| - 1 ==> !cs[i].OrderByLimit?)
  {
    var fs, r := WhereFilters(o), o.minimumRating;
    var w := if fs == [] then 1 else |fs|;
    AssembleLayout(fs, r, limit);
    AssembleKinds(fs, r, limit);
    assert Assemble(fs, r, limit).clauses[w + 1] == GroupBy;
  }

  /** The WHERE predicates appear in the order city, owner, minimum price,
      maximum price, each at most once, and their placeholders grow in the same
      order. */
  lemma ConditionsInRankOrder(o: Options, limit: Js<int>)
    ensures var cs := SearchQuery(o, limit).clauses;
      forall i, j :: 0 <= i < j < |cs| && cs[i].Condition? && cs[j].Condition? ==>
        Rank(cs[i].pred) < Rank(cs[j].pred) && cs[i].slot < cs[j].slot
  {
    var fs, r := WhereFilters(o), o.minimumRating;
    AssembleLayout(fs, r, limit);
    AssembleKinds(fs, r, limit);
    WhereFiltersOrdered(o);
  }

  /** Each WHERE predicate appears in the text exactly when its option is
      truthy, and the HAVING predicate exactly when the minimum rating is not
      `undefined`. */
  lemma PredicateIffOption(o: Options, limit: Js<int>, p: Pred)
    ensures var cs := SearchQuery(o, limit).clauses;
      Fires(o, p) <==> exists i :: 0 <= i < |cs| && cs[i].Condition? && cs[i].pred == p
    ensures var cs := SearchQuery(o, limit).clauses;
      !o.minimumRating.Undefined? <==> exists i :: 0 <= i < |cs| && cs[i].Having?
  {
    var fs, r := WhereFilters(o), o.minimumRating;
    var cs := Assemble(fs, r, limit).clauses;
    var w := if fs == [] then 1 else |fs|;
    AssembleLayout(fs, r, limit);
    AssembleKinds(fs, r, limit);
    WhereFiltersIff(o, p);
    if Fires(o, p) {
      var j :| 0 <= j < |fs| && fs[j].pred == p;
      assert cs[j + 1].Condition? && cs[j + 1].pred == p;
    }
    if !r.Undefined? {
      assert cs[w + 2].Having?;
    }
  }

  // ---------------------------------------------------------------------------
  // Truthiness

  /** Options that agree on which WHERE filters fire, on the values those bind
      and on the minimum rating build the same query: beyond the rating, only
      the truthy options matter. */
  lemma OnlyTruthyFiltersMatter(o1: Options, o2: Options, limit: Js<int>)
    requires forall p :: Fires(o1, p) == Fires(o2, p)
    requires forall p :: Fires(o1, p) ==> FilterValue(o1, p) == FilterValue(o2, p)
    requires o1.minimumRating == o2.minimumRating
    ensures SearchQuery(o1, limit) == SearchQuery(o2, limit)
  {
    assert FilterIf(o1, CityLike) == FilterIf(o2, CityLike);
    assert FilterIf(o1, OwnerIdEquals) == FilterIf(o2, OwnerIdEquals);
    assert FilterIf(o1, CostAtLeast) == FilterIf(o2, CostAtLeast);
    assert FilterIf(o1, CostAtMost) == FilterIf(o2, CostAtMost);
  }

  /** An empty, `null` or missing city adds no predicate and no parameter. */
  lemma FalsyCityAddsNothing(o: Options, city: Js<string>, limit: Js<int>)
    requires !TruthyString(city)
    ensures SearchQuery(o.(city := city), limit) == SearchQuery(o.(city := Undefined), limit)
  {
    OnlyTruthyFiltersMatter(o.(city := city), o.(city := Undefined), limit);
  }

  lemma FalsyOwnerAddsNothing(o: Options, x: Js<int>, limit: Js<int>)
    requires !TruthyNumber(x)
    ensures SearchQuery(o.(ownerId := x), limit) == SearchQuery(o.(ownerId := Undefined), limit)
  {
    OnlyTruthyFiltersMatter(o.(ownerId := x), o.(ownerId := Undefined), limit);
  }

  lemma FalsyMinimumPriceAddsNothing(o: Options, x: Js<int>, limit: Js<int>)
    requires !TruthyNumber(x)
    ensures SearchQuery(o.(minimumPricePerNight := x), limit)
         == SearchQuery(o.(minimumPricePerNight := Undefined), limit)
  {
    OnlyTruthyFiltersMatter(o.(minimumPricePerNight := x), o.(minimumPricePerNight := Undefined), limit);
  }

  lemma FalsyMaximumPriceAddsNothing(o: Options, x: Js<int>, limit: Js<int>)
    requires !TruthyNumber(x)
    ensures SearchQuery(o.(maximumPricePerNight := x), limit)
         == SearchQuery(o.(maximumPricePerNight := Undefined), limit)
  {
    OnlyTruthyFiltersMatter(o.(maximumPricePerNight := x), o.(maximumPricePerNight := Undefined), limit);
  }

  /** A zero, `null` or missing owner, minimum price or maximum price adds no
      predicate and no parameter. */
  lemma FalsyNumberFiltersAddNothing(o: Options, x: Js<int>, limit: Js<int>)
    requires !TruthyNumber(x)
    ensures SearchQuery(o.(ownerId := x), limit) == SearchQuery(o.(ownerId := Undefined), limit)
    ensures SearchQuery(o.(minimumPricePerNight := x), limit)
         == SearchQuery(o.(minimumPricePerNight := Undefined), limit)
    ensures SearchQuery(o.(maximumPricePerNight := x), limit)
         == SearchQuery(o.(maximumPricePerNight := Undefined), limit)
  {
    FalsyOwnerAddsNothing(o, x, limit);
    FalsyMinimumPriceAddsNothing(o, x, limit);
    FalsyMaximumPriceAddsNothing(o, x, limit);
  }

  /** The asymmetry of the rating filter: a minimum rating of 0 still adds a
      HAVING predicate and binds its value, one parameter more than when the
      rating is missing, whereas a minimum price of 0 adds no predicate. */
  lemma ZeroRatingStillFilters(o: Options, limit: Js<int>)
    requires o.minimumRating == Defined(0)
    ensures var q := SearchQuery(o, limit);
      exists i :: 0 <= i < |q.clauses| && q.clauses[i].Having? && 1 <= q.clauses[i].slot <= |q.params|
        && q.params[q.clauses[i].slot - 1] == NumStr(0)
    ensures |SearchQuery(o, limit).params| == |SearchQuery(o.(minimumRating := Undefined), limit).params| + 1
    ensures var cs := SearchQuery(o.(minimumPricePerNight := Defined(0)), limit).clauses;
      forall i :: 0 <= i < |cs| && cs[i].Condition? ==> cs[i].pred != CostAtLeast
  {
    var fs := WhereFilters(o);
    var w := if fs == [] then 1 else |fs|;
    AssembleLayout(fs, o.minimumRating, limit);
    assert WhereFilters(o.(minimumRating := Undefined)) == fs;
    AssembleLayout(fs, Undefined, limit);
    assert SearchQuery(o, limit).clauses[w + 2] == Having(|fs| + 1);
    PredicateIffOption(o.(minimumPricePerNight := Defined(0)), limit, CostAtLeast);
  }

  // ---------------------------------------------------------------------------
  // Worked examples

  /** With no options and no limit, the query filters on `WHERE TRUE` and binds
      only the default limit of 10. */
  lemma NoOptionsExample()
    ensures var q := SearchQuery(Options(Undefined, Undefined, Undefined, Undefined, Undefined), Undefined);
      q.clauses == [SelectFrom, WhereTrue, GroupBy, OrderByLimit(1)] && q.params == [Num(10)]
  {
  }

  /** A minimum price of 50 is bound as 5000 cents. */
  lemma MinimumPriceInCentsExample()
    ensures var q := SearchQuery(Options(Undefined, Undefined, Defined(50), Undefined, Undefined), Undefined);
      q.params == [NumStr(5000), Num(10)]
      && q.clauses == [SelectFrom, Condition(Where, CostAtLeast, 1), GroupBy, OrderByLimit(2)]
  {
  }

  /** Owner 3, maximum price 200, minimum rating 4 and limit 5 give four
      parameters, the owner and the price in cents as text, then the rating and
      the limit, and the clauses SELECT, two WHERE predicates, GROUP BY, HAVING
      and ORDER BY ... LIMIT. */
  lemma OwnerPriceRatingExample()
    ensures var q := SearchQuery(Options(Undefined, Defined(3), Undefined, Defined(200), Defined(4)), Defined(5));
      q.params == [NumStr(3), NumStr(20000), NumStr(4), Num(5)]
      && q.clauses == [SelectFrom, Condition(Where, OwnerIdEquals, 1), Condition(And, CostAtMost, 2),
                       GroupBy, Having(3), OrderByLimit(4)]
  {
  }

  // The exact text of one query, clause by clause.

  lemma CityPredicateText()
    ensures ClauseText(Condition(Where, CityLike, 1)) == "WHERE city LIKE $1 "
  {
    assert Placeholder(1) == "$1";
    assert ConnectiveText(Where) + " " + PredText(CityLike) == "WHERE city LIKE";
  }

  lemma OwnerPredicateText()
    ensures ClauseText(Condition(And, OwnerIdEquals, 2)) == " AND owner_id = $2"
  {
    assert Placeholder(2) == "$2";
    assert ConnectiveText(And) + " " + PredText(OwnerIdEquals) == " AND owner_id =";
  }

  lemma LimitClauseText()
    ensures ClauseText(OrderByLimit(3)) == "\n  ORDER BY cost_per_night\n  LIMIT $3;\n  "
  {
    assert Placeholder(3) == "$3";
  }

  lemma RenderFive(c0: Clause, c1: Clause, c2: Clause, c3: Clause, c4: Clause)
    ensures Render([c0, c1, c2, c3, c4])
         == ClauseText(c0) + ClauseText(c1) + ClauseText(c2) + ClauseText(c3) + ClauseText(c4)
  {
    var cs0: seq<Clause> := [];
    var cs1 := cs0 + [c0];
    var cs2 := cs1 + [c1];
    var cs3 := cs2 + [c2];
    var cs4 := cs3 + [c3];
    var cs5 := cs4 + [c4];
    RenderSnoc(cs0, c0);
    RenderSnoc(cs1, c1);
    RenderSnoc(cs2, c2);
    RenderSnoc(cs3, c3);
    RenderSnoc(cs4, c4);
    assert Render(cs1) == ClauseText(c0) by {
      var t := ClauseText(c0);
      assert Render(cs0) == "";
      assert "" + t == t;
    }
    SnocFive(c0, c1, c2, c3, c4);
  }

  lemma SnocFive(c0: Clause, c1: Clause, c2: Clause, c3: Clause, c4: Clause)
    ensures [] + [c0] + [c1] + [c2] + [c3] + [c4] == [c0, c1, c2, c3, c4]
  {
  }

  lemma CityOwnerClauses()
    ensures SearchQuery(Options(Defined("x"), Defined(3), Undefined, Undefined, Undefined), Undefined).clauses
         == [SelectFrom, Condition(Where, CityLike, 1), Condition(And, OwnerIdEquals, 2), GroupBy, OrderByLimit(3)]
  {
  }

  lemma CityOwnerWhereText()
    ensures "WHERE city LIKE $1 " + " AND owner_id = $2" == "WHERE city LIKE $1  AND owner_id = $2"
  {
  }

  lemma AppendAssoc(a: string, b: string, c: string)
    ensures a + b + c == a + (b + c)
  {
  }

  /** The text of a search on city "x" and owner 3 with no limit: the city
      predicate keeps its trailing blank, so two blanks precede the AND. */
  lemma CityOwnerTextExample()
    ensures Render(SearchQuery(Options(Defined("x"), Defined(3), Undefined, Undefined, Undefined), Undefined).clauses)
         == SelectText + "WHERE city LIKE $1  AND owner_id = $2" + "\n  GROUP BY properties.id\n  "
            + "\n  ORDER BY cost_per_night\n  LIMIT $3;\n  "
  {
    var c1, c2 := Condition(Where, CityLike, 1), Condition(And, OwnerIdEquals, 2);
    CityOwnerClauses();
    RenderFive(SelectFrom, c1, c2, GroupBy, OrderByLimit(3));
    CityPredicateText();
    OwnerPredicateText();
    LimitClauseText();
    CityOwnerWhereText();
    AppendAssoc(SelectText, "WHERE city LIKE $1 ", " AND owner_id = $2");
  }
}
