# LightBnB data access: the property search query builder

LightBnB's data-access layer (`LightBnB_WebApp/db/database.js`) turns requests
from the web routes into parameterized SQL for PostgreSQL. Its one piece of real
logic is `getAllProperties`: from a sparse options record (`city`, `owner_id`,
`minimum_price_per_night`, `maximum_price_per_night`, `minimum_rating`) and a
result limit (default 10) it builds a SQL text whose `$k` placeholders refer to
the k-th entry of a parameter list, adding one predicate per option that is set.
Two pass-through operations are modelled beside it: `getUserWithEmail`, which
lower-cases the email before binding it, and `addProperty`, which binds the
fourteen fields of a new property in the order of the INSERT's columns.

The project has five modules:

- `JsValues` (`js_values.dfy`) makes the JavaScript values explicit. An option
  is `Undefined`, `Null` or `Defined(v)`, and truthiness is written out: `""`,
  `0`, `null` and `undefined` are falsy. A bound parameter is a string, a number
  written as text by a template literal (`NumStr`), a raw number (`Num`, the
  limit), `null` or `undefined`.
- `SqlText` (`sql_text.dfy`) renders placeholder numbers in decimal and reads
  them back.
- `PropertySearch` (`property_search.dfy`) holds the search builder.
  `GetAllProperties` is imperative, like the source: it keeps a query string, a
  parameter list and a `whereAdded` flag, and appends to them one `if` block at a
  time. The SQL text is also described as a sequence of clause tokens, and
  `Render` writes those tokens out as the exact text the source appends. The
  method is proved equal to a pure reference definition, `SearchQuery`. That
  definition collects the filters that fire, folds them into numbered predicates
  and their values, and then appends the rating and the limit.
- `SearchProperties` (`search_properties.dfy`) proves what the search
  guarantees about every query it builds. It covers:
  - how placeholders line up with parameters;
  - the parameter count;
  - that there is exactly one WHERE;
  - the fixed clause order;
  - when each predicate appears;
  - how falsy options are handled;
  - the minimum rating of 0, which still filters.
- `UserLookup` (`user_lookup.dfy`) models the email lookup's parameter, and
  `PropertyInsert` (`property_insert.dfy`) models the insert's value list.

The city filter is `city LIKE $k` bound to the pattern `%city%`. PostgreSQL's
`LIKE` is case-sensitive, so a city that differs from the option only in case
does not match. Which rows match is not modelled (see "Left out").

## Model

| member | source | states |
|---|---|---|
| SqlText.NatToString | LightBnB_WebApp/db/database.js:138 | A placeholder number is written as a non-empty string of decimal digits, with no leading zero unless the number is 0. |
| SqlText.DigitsValueOfNatToString | LightBnB_WebApp/db/database.js:138 | Reading back the digits of a placeholder gives its number, so the text `$k` names parameter k. |
| SqlText.NatToStringInjective | LightBnB_WebApp/db/database.js:144 | Distinct placeholder numbers are written as distinct texts. |
| PropertySearch.Values | LightBnB_WebApp/db/database.js:136-158 | The values pushed by the fired filters form a list with one entry per filter, in the order the filters fired. |
| PropertySearch.Conditions | LightBnB_WebApp/db/database.js:136-158 | The i-th fired filter becomes predicate i, numbered $(i+1). The first is introduced by WHERE and every later one by AND. |
| PropertySearch.FilterStep | LightBnB_WebApp/db/database.js:136-158 | One `if (options.x)` block. It preserves the builder invariant: the text renders the clauses, every value pushed so far is bound, and `whereAdded` holds exactly when some predicate was added. The fired list grows by this filter exactly when its option is truthy. |
| PropertySearch.AddWhereFilters | LightBnB_WebApp/db/database.js:126-158 | Starting from the SELECT text and no parameters, the four blocks leave exactly the filters that fire, in the order city, owner, minimum price, maximum price. The text and the parameters match them. |
| PropertySearch.CloseWhere | LightBnB_WebApp/db/database.js:160-167 | `WHERE TRUE` is appended exactly when no predicate was added, and GROUP BY is appended after it. |
| PropertySearch.AddHaving | LightBnB_WebApp/db/database.js:169-172 | A minimum rating that is not `undefined` (including `null` and 0) is pushed as text. The HAVING placeholder is the new length of the parameter list. Otherwise nothing changes. |
| PropertySearch.AddLimit | LightBnB_WebApp/db/database.js:174-178 | The limit is pushed last, and the LIMIT placeholder is the length of the parameter list. |
| JsValues.TruthyString | LightBnB_WebApp/db/database.js:136 | Defines the truthiness test on the city: `undefined`, `null` and `""` are falsy, and every other string is truthy. |
| JsValues.TruthyNumber | LightBnB_WebApp/db/database.js:142-154 | Defines the truthiness test on a numeric option: `undefined`, `null` and 0 are falsy, and every other number is truthy. |
| JsValues.TemplateText | LightBnB_WebApp/db/database.js:143 | Defines what a template literal writes for a numeric option: the number as text, or the words "undefined" or "null". |
| PropertySearch.ClauseText | LightBnB_WebApp/db/database.js:128-178 | Defines the text each step appends. The city predicate keeps a trailing blank. The other predicates are joined by " AND". `WHERE TRUE`, GROUP BY, HAVING and ORDER BY/LIMIT are written exactly as in the source. |
| PropertySearch.Render | LightBnB_WebApp/db/database.js:128-178 | Defines the query string as the clause texts appended in order. |
| PropertySearch.Fires | LightBnB_WebApp/db/database.js:136-154 | Defines which option each WHERE block tests for truthiness: city, owner, minimum price and maximum price. |
| PropertySearch.FilterValue | LightBnB_WebApp/db/database.js:137-155 | Defines the value each WHERE block pushes: the city wrapped in `%`, the owner as text, and each price times 100 as text. |
| PropertySearch.LimitValue | LightBnB_WebApp/db/database.js:125 | Defines the limit after the default parameter is applied: an `undefined` limit becomes 10, and `null` or a number is kept. |
| PropertySearch.GetAllProperties | LightBnB_WebApp/db/database.js:125-180 | The text and the parameters the builder produces are exactly the rendered clauses and the parameters of the reference query `SearchQuery` for the same options and limit. The default limit 10 applies only to an `undefined` limit. |
| SearchProperties.WhereFiltersFire | LightBnB_WebApp/db/database.js:136-158 | Every filter in the fired list has a truthy option and carries the value its block pushes: `%city%`, the owner as text, and the prices times 100 as text. |
| SearchProperties.WhereFiltersOrdered | LightBnB_WebApp/db/database.js:136-158 | The fired filters appear in the order the blocks are written, each at most once. |
| SearchProperties.WhereFiltersIff | LightBnB_WebApp/db/database.js:136-158 | A predicate is among the fired filters if and only if its option is truthy. |
| SearchProperties.SlotsOfConditions | LightBnB_WebApp/db/database.js:136-158 | The placeholders of the WHERE predicates read $1 … $n from left to right. |
| SearchProperties.AssembleLayout | LightBnB_WebApp/db/database.js:126-178 | Gives the position of every clause and every parameter in an assembled query: SELECT, the WHERE part, GROUP BY, the optional HAVING, then ORDER BY/LIMIT. |
| SearchProperties.AssembleKinds | LightBnB_WebApp/db/database.js:126-178 | Says which kind of clause sits at each position of an assembled query. Each fact is an if-and-only-if. |
| SearchProperties.AssembleSlots | LightBnB_WebApp/db/database.js:126-178 | The placeholders of an assembled query, read left to right, are 1 … n, where n is the number of parameters. |
| SearchProperties.PlaceholdersNumberParameters | LightBnB_WebApp/db/database.js:138-177 | Reading the search text left to right, the placeholders are $1, $2, …, $n, where n is the number of parameters. Each parameter is referred to exactly once, in order. |
| SearchProperties.PlaceholdersBindTheirValues | LightBnB_WebApp/db/database.js:136-178 | Each WHERE placeholder refers to the value its own block pushed. The HAVING placeholder refers to the minimum rating as text. The LIMIT placeholder refers to the limit. |
| SearchProperties.ParameterCount | LightBnB_WebApp/db/database.js:136-174 | There is one parameter per truthy WHERE option, plus one if the minimum rating is not `undefined`, plus one for the limit. |
| SearchProperties.LimitIsLast | LightBnB_WebApp/db/database.js:174-178 | The limit is the last parameter, and ORDER BY … LIMIT is the last clause, numbered by the total parameter count. |
| SearchProperties.ExactlyOneWhere | LightBnB_WebApp/db/database.js:136-163 | The clause right after the SELECT opens the WHERE part, with either the first predicate or `WHERE TRUE`, and no other clause opens it. Every later predicate is joined with AND. `WHERE TRUE` appears if and only if no WHERE option is truthy. |
| SearchProperties.ClauseKindsInOrder | LightBnB_WebApp/db/database.js:136-178 | The WHERE part comes first, then one GROUP BY, then HAVING, then ORDER BY … LIMIT, which is last. |
| SearchProperties.ConditionsInRankOrder | LightBnB_WebApp/db/database.js:136-158 | WHERE predicates keep the order city, owner, minimum price, maximum price, each at most once, and their placeholder numbers increase in the same order. |
| SearchProperties.PredicateIffOption | LightBnB_WebApp/db/database.js:136-172 | A WHERE predicate appears if and only if its option is truthy. HAVING appears if and only if the minimum rating is not `undefined`. |
| SearchProperties.OnlyTruthyFiltersMatter | LightBnB_WebApp/db/database.js:136-158 | Two option records that agree on which filters fire, on the values those filters bind, and on the minimum rating build the same query. |
| SearchProperties.FalsyCityAddsNothing | LightBnB_WebApp/db/database.js:136-140 | An empty, `null` or missing city builds the same query as no city at all. |
| SearchProperties.FalsyOwnerAddsNothing | LightBnB_WebApp/db/database.js:142-146 | A zero, `null` or missing owner builds the same query as no owner. |
| SearchProperties.FalsyMinimumPriceAddsNothing | LightBnB_WebApp/db/database.js:148-152 | A zero, `null` or missing minimum price builds the same query as no minimum price. |
| SearchProperties.FalsyMaximumPriceAddsNothing | LightBnB_WebApp/db/database.js:154-158 | A zero, `null` or missing maximum price builds the same query as no maximum price. |
| SearchProperties.FalsyNumberFiltersAddNothing | LightBnB_WebApp/db/database.js:142-158 | A zero, `null` or missing owner, minimum price or maximum price builds the same query as leaving that option out. |
| SearchProperties.ZeroRatingStillFilters | LightBnB_WebApp/db/database.js:148-172 | A minimum rating of 0 still adds HAVING with the value 0 bound, one parameter more than with no rating. A minimum price of 0 adds no predicate. |
| SearchProperties.NoOptionsExample | LightBnB_WebApp/db/database.js:125-178 | With no options and no limit, the query is SELECT, `WHERE TRUE`, GROUP BY, `LIMIT $1`, and binds only 10. |
| SearchProperties.MinimumPriceInCentsExample | LightBnB_WebApp/db/database.js:148-152 | A minimum price of 50 adds `WHERE cost_per_night >= $1` and binds "5000". |
| SearchProperties.OwnerPriceRatingExample | LightBnB_WebApp/db/database.js:142-178 | Owner 3, maximum price 200, minimum rating 4 and limit 5 bind "3", "20000", "4" and 5. The predicates are owner and maximum price, joined by AND, then HAVING `$3` and `LIMIT $4`. |
| SearchProperties.CityOwnerTextExample | LightBnB_WebApp/db/database.js:128-178 | With city "x" and owner 3 and no limit, the whole query string is the SELECT text, then `WHERE city LIKE $1  AND owner_id = $2` (two blanks before AND), then the GROUP BY text, then the ORDER BY text ending in `LIMIT $3;`. |
| UserLookup.LowerChar | LightBnB_WebApp/db/database.js:23 | A lower-cased character is not an upper-case letter and differs from the original in case only. |
| UserLookup.ToLower | LightBnB_WebApp/db/database.js:23 | The lower-cased email contains no upper-case letter and differs from the input in case only. |
| UserLookup.ToLowerAt | LightBnB_WebApp/db/database.js:23 | Lower-casing works character by character. |
| UserLookup.LowerEqualIffEqualIgnoringCase | LightBnB_WebApp/db/database.js:23 | Two emails lower-case to the same string if and only if they differ in case only. |
| UserLookup.ToLowerIdempotent | LightBnB_WebApp/db/database.js:23 | Lower-casing an email that is already lower-cased changes nothing. |
| UserLookup.UserWithEmailParams | LightBnB_WebApp/db/database.js:23 | The lookup binds one parameter. A present email is bound in lower case, differing from the input in case only. A `null` or missing email binds `undefined` instead of raising. |
| UserLookup.LookupIgnoresCase | LightBnB_WebApp/db/database.js:23 | Emails that differ in case only bind the same parameter. |
| UserLookup.MixedCaseEmailExample | LightBnB_WebApp/db/database.js:23 | "Me@X.io" is bound as "me@x.io". |
| PropertyInsert.ColumnIndex | LightBnB_WebApp/db/database.js:190-204 | Every column of the INSERT has a position in the column list: the entry of the column list at `ColumnIndex(c)` is c. |
| PropertyInsert.ValuesPlaceholdersNumbered | LightBnB_WebApp/db/database.js:205 | The VALUES list has one placeholder per column, and the i-th placeholder is $(i+1). |
| PropertyInsert.PlaceholderBindsColumn | LightBnB_WebApp/db/database.js:190-224 | The placeholder at column c's position in the VALUES list is $(i+1), where i is that position, and it refers to the new property's field for c. |
| PropertyInsert.AddPropertyValues | LightBnB_WebApp/db/database.js:209-224 | Exactly fourteen values are bound. The i-th value is the new property's field for the i-th column of the INSERT, unchanged. |
| PropertyInsert.ColumnsDistinct | LightBnB_WebApp/db/database.js:190-205 | The fourteen columns are distinct, every column is listed, and the column names are distinct. So each placeholder fills one column and each column one placeholder. |
| PropertyInsert.AddPropertyValuesInjective | LightBnB_WebApp/db/database.js:209-224 | No submitted field is lost: two properties that bind the same values are the same property. |

## Left out

- Executing the query is not modelled: `pool.query`, the promise chains and the returned rows. What a query returns depends on the database, so the model stops at the SQL text and the parameter list handed to the driver.
- Error handling is not modelled. The email lookup catches a failed query, logs its message and resolves to `undefined` (`database.js:28-30`). The property search has no handler, so a failed query rejects its promise (`database.js:180`). The insert logs the error and throws it again (`database.js:230-233`).
- The SQL semantics of the predicates are not modelled: matching, grouping, averaging and ordering. In particular, the city filter uses `LIKE`, which is case-sensitive in PostgreSQL.
- The connection-pool configuration from the environment (`database.js:4-13`) is not modelled, nor are the unused JSON fixtures it loads (`database.js:1-2`). Both are I/O.
- `getUserWithId`, `addUser` and `getAllReservations` are not modelled. Each binds its arguments to a fixed statement and has no branching.
- `PropertySearch.Options`: string-valued options are not represented. The owner, the prices and the rating are `Js<int>`, so the following cases cannot be expressed:
  - `owner_id: "0"` or `minimum_price_per_night: "0"` is truthy in JavaScript, so it adds a predicate and binds "0". In the model, the integer 0 adds nothing.
  - `minimum_rating: ""` passes the `!== undefined` test at `database.js:169` and binds "".
  - A string price is coerced by `* 100` (`"50" * 100` is 5000, and a non-numeric string gives NaN).
- `PropertySearch.FilterValue`: prices are integers, and the floating-point product `* 100` is not modelled. Prices are bound as the exact decimal text of the product.
- Inputs that make the source throw are not represented. An `options` that is `undefined` or `null` throws a TypeError at `database.js:136`. A present email that is not a string throws a TypeError at `database.js:23`. Both throws happen before any query is built.
- `UserLookup.ToLower`: only the ASCII letters A–Z are lower-cased. JavaScript's `toLowerCase` also maps other Unicode letters.
- `PropertyInsert.AddPropertyValues`: the fields of the new property are taken as already-bound values. The INSERT text, including `RETURNING *`, is described only by its column list and its VALUES placeholders.
