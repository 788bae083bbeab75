# A verified model of a minimal TypeScript ORM core

The system is a small object-relational mapping layer for Postgres. It has two parts:

- `QueryBuilder` is a fluent builder. It accumulates a table, a projection, WHERE fragments with a flat parameter list, ORDER BY terms and a limit. `build()` renders them into one parameterised `SELECT` statement.
- `Model` is an active-record base class. Its class-level `findAll` and `findById` and its instance-level `loadRelation` compose builder calls. They send the statement to the database and return rows or hydrated instances. Relations are declared once with `defineRelation`.

The Dafny project has four modules:

- `Values` (`values.dfy`) defines database values, rows, rendered queries, the error kinds and their messages, and `Option`/`Result`.
- `Strings` (`strings.dfy`) holds the two pieces of JavaScript string behaviour the builder uses. These are `Array.prototype.join` and decimal rendering of a number in a template literal. Decimal rendering is proved to round-trip through `DecimalValue`.
- `QueryBuilding` (`query_builder.dfy`) describes a builder at two levels. `BuilderState` is a value, `Call` is one chained call, `Apply` is that call's effect, and `Replay` is the effect of a sequence of calls. `Render` is `build()`. The mutable `QueryBuilder` class has the builder's six fields as sequences and options. A ghost `history` records the calls made so far, and its invariant `Valid()` says the fields are what `Replay(history)` produces. Each method is proved to append its own call. So every lemma about `Replay` also holds of any builder object.
- `Models` (`model.dfy`) models the model layer. The class statics become explicit values:
  - a `ModelClass` holds the class name and its static `tableName`;
  - a `Config` holds the shared connection and the shared relation registry;
  - the mutable `ModelStatics` class holds the two statics that `defineRelation` and `Model.connection = …` write.

  The database is the connection's `execute` function, from statement text and parameters to rows or a driver error. Each operation returns a `Run`, which holds the statements it sent, in order, and its outcome. So the contracts say exactly which text and parameters go to the database, and that an error raised before the query leaves `sent` empty.

Behaviour that the model follows from the code:

- **One registry for all model classes.** `relations` is initialised only on the base class. `defineRelation` writes through `this.relations`, so every subclass writes into the same object. `RegistryIsShared` and `PostResolvesUsersRelation` state the consequence: a `Post` instance can load `User`'s "posts" relation. So the registry is not per class.
- **Builder methods that do not exist.** The builder has no `join`, `insert`, `update` or `delete`. Calling one throws a `TypeError` before anything is sent. So `save`, `update`, `delete` and the many-to-many arm of `loadRelation` always fail. The model says exactly that (`MissingBuilderMethod`) and invents no SQL for them.
- **Order of errors.**
  - `findAll` builds first and then reads the connection. With no connection it fails on `getClient` of `undefined` (`ClientUnavailable`).
  - `findById` checks the connection before it builds.
  - `loadRelation` looks up the name first, then takes the client, then dispatches on the type. So an unsupported type is reported only when a connection is set, and relation errors other than an undefined name come after the client is taken.
- **JavaScript property semantics.** A model class that never overrides `tableName` passes `undefined` to `from`. `build` rejects it like the empty string. A missing `localKey` or `foreignKey` prints as `undefined` in the template and reads the field named "undefined". An absent instance field reads as `Undefined`. The declared optional `id` field is an own property of every fresh instance, initialised to `undefined` under class-field define semantics. So `findById` returns the first row's fields plus `id`. When the row has an `id` column, which a row matched by `id = $1` has, the fields are exactly the row's (`HydratedIsRow`).
- `build()` is a function of the builder state. It reads the fields and changes none of them, so two consecutive builds give equal text and parameters.

## Model

| member | source | states |
|---|---|---|
| `QueryBuilding.Render` | src/core/query-builder.ts:37-68 | build fails with the "table name must be specified" error exactly when the table is unset or empty. Otherwise the parameters are the accumulated ones. The text is `SELECT <fields joined by ", " or *> FROM <table>`, then ` WHERE` with the fragments joined by " AND " if any, ` ORDER BY` with the `field order` terms if any, and ` LIMIT n` if a limit is set, in that fixed order |
| `QueryBuilding.ClausesJoined` | src/core/query-builder.ts:42-65 | joining the pushed clause list with single spaces equals that flat text: one space before each present optional clause, nothing for an absent one |
| `QueryBuilding.AccumulatedInCallOrder` | src/core/query-builder.ts:21-29 | after any sequence of calls, the parameters are the `where` value lists concatenated in call order. The WHERE fragments and ORDER BY terms are those passed, in call order. No other call touches them |
| `QueryBuilding.LastCallWins` | src/core/query-builder.ts:11-35 | `select`, `from` and `limit` overwrite: after such a call, calls of the other methods leave its field exactly as that call set it |
| `QueryBuilding.NeverCalled` | src/core/query-builder.ts:4-9 | while `select`, `from` or `limit` has never been called, its field keeps the initial empty list or null. So the projection renders as `*`, the table is unset and LIMIT is absent |
| `QueryBuilding.OptionalClausesPresentIffCalled` | src/core/query-builder.ts:49-62 | WHERE, ORDER BY and LIMIT are each rendered if and only if `where`, `orderBy` or `limit` was called at least once. This includes `limit(0)` |
| `QueryBuilding.ReplaySnoc` | src/core/query-builder.ts:11-35 | each chained call acts on the state the previous calls left |
| `QueryBuilding.QueryBuilder.constructor` | src/core/query-builder.ts:4-9 | a new builder has empty lists, null table and limit, and no recorded calls |
| `QueryBuilding.QueryBuilder.Select` | src/core/query-builder.ts:11-14 | replaces the projection list and records the call; every other field is unchanged |
| `QueryBuilding.QueryBuilder.From` | src/core/query-builder.ts:16-19 | replaces the table and records the call; every other field is unchanged |
| `QueryBuilding.QueryBuilder.Where` | src/core/query-builder.ts:21-25 | appends the fragment verbatim and the values, in order, to the parameters; values default to none; every other field is unchanged |
| `QueryBuilding.QueryBuilder.OrderBy` | src/core/query-builder.ts:27-30 | appends one term, with the order defaulting to ASC; every other field is unchanged |
| `QueryBuilding.QueryBuilder.Limit` | src/core/query-builder.ts:32-35 | replaces the limit and records the call; every other field is unchanged |
| `QueryBuilding.QueryBuilder.Build` | src/core/query-builder.ts:37-68 | a builder object's `build()` is the rendering of the calls made on it, so every property of `Replay` and `Render` holds of the object |
| `Strings.NatToString` | src/core/query-builder.ts:61 | the limit renders as non-empty decimal digits with no leading zero, and those digits denote the limit (round trip through `DecimalValue`) |
| `Strings.NatToStringInjective` | src/core/query-builder.ts:61 | different limits render as different texts |
| `Strings.JoinSnoc` | src/core/query-builder.ts:65 | joining one more part appends the separator and that part |
| `Models.ModelStatics.constructor` | src/core/model.ts:11-12 | the registry starts empty and the connection unset |
| `Models.ModelStatics.SetConnection` | src/main.ts:14 | sets the one connection all model classes read; the registry is unchanged |
| `Models.ModelStatics.DefineRelation` | src/core/model.ts:88-90 | the shared registry maps the name to the descriptor; every other entry and the connection are unchanged |
| `Models.Assign` | src/core/model.ts:43 | `Object.assign`: the keys are the union; the source's values override; the target's other keys keep their values |
| `Models.HydratedIsRow` | src/core/model.ts:42-44 | a fresh instance assigned a row that has an `id` column has exactly that row's fields |
| `Models.SelectAllRendered` | src/core/model.ts:15 | `from(t).build()` renders `SELECT * FROM t` with no parameters, or fails on an unset or empty table |
| `Models.SelectWhereRendered` | src/core/model.ts:32-35 | `from(t).where("<col> = $1", [v]).build()` renders `SELECT * FROM t WHERE <col> = $1` with parameters `[v]`, or fails on an unset or empty table |
| `Models.SelectWhereLimitOneRendered` | src/core/model.ts:104-108 | the same chain followed by `limit(1)` renders the same text followed by ` LIMIT 1` |
| `Models.FindAll` | src/core/model.ts:14-25 | an unset table fails first, then an unset connection, each with nothing sent. Otherwise exactly `SELECT * FROM <table>` with no parameters is sent, and the driver's rows or error come back unchanged, not hydrated |
| `Models.FindById` | src/core/model.ts:27-45 | an unset connection fails first with "not initialized", then an unset table, each with nothing sent. Otherwise exactly `SELECT * FROM <table> WHERE id = $1` with `[id]` is sent. The result is null if and only if no rows come back, otherwise a fresh instance hydrated from the first row. A driver error comes back unchanged |
| `Models.BuildFindByIdQuery` | src/core/model.ts:32-35 | on a builder object, `from(t).where("id = $1", [id]).build()` gives `SELECT * FROM t WHERE id = $1` with `[id]`, and fails on an empty table |
| `Models.RelationQuery` | src/core/model.ts:102-137 | one-to-one builds `SELECT * FROM <target table> WHERE <foreignKey> = $1 LIMIT 1`, and one-to-many the same without LIMIT; both take the instance's local-key value as the only parameter. Many-to-many fails on the missing `join`. Any other type fails as unsupported |
| `Models.LoadRelation` | src/core/model.ts:92-138 | an undefined name fails first, naming the relation and the model class, with nothing sent. Then an unset connection fails. Otherwise the relation's statement is sent, and one-to-one answers the first row or null while the other types answer all rows unchanged. A driver error comes back unchanged |
| `Models.OneToManyLoadSends` | src/core/model.ts:114-121 | loading a defined one-to-many relation with a connection set sends exactly `SELECT * FROM <target table> WHERE <foreignKey> = $1` with the instance's local-key value as the only parameter |
| `Models.RegistryIsShared` | src/core/model.ts:88-93 | a defined relation name resolves identically whichever model class the instance belongs to |
| `Models.PostResolvesUsersRelation` | src/main.ts:16-43 | after the example setup, a `Post` instance loading "posts" sends `SELECT * FROM posts WHERE user_id = $1` with the post's own `id` |
| `Models.ExampleApplication` | src/main.ts:14-46 | on the statics object after the connection assignment and both `setupRelations` calls, a `Post` instance loading "posts" sends `SELECT * FROM posts WHERE user_id = $1` with its own `id`, and answers the driver's rows or error unchanged |
| `Models.WritesNeverReachConnection` | src/core/model.ts:48-87 | `save`, `update` and `delete`, and a many-to-many load, always fail and send nothing |
| `Models.Save` | src/core/model.ts:48-60 | sends nothing and fails with "insert is not a function", whatever the instance, table or connection |
| `Models.Update` | src/core/model.ts:62-76 | sends nothing and fails with "update is not a function" |
| `Models.Delete` | src/core/model.ts:78-87 | sends nothing and fails with "delete is not a function" |

## Left out

- `src/core/connection.ts` is not part of this model. It wraps the network client (connect, disconnect, `getClient`). The model has only its capability to run a statement, the `execute` function of `Connection`.
- `src/main.ts` is not part of this model beyond the connection assignment and the relation setup that `SetConnection` and `PostResolvesUsersRelation` restate. Reading environment variables and printing are I/O.
- The test files are not modelled. One needs a live database. The other calls `join`, which the builder does not have.
- `async`/`await`, `console.log`/`console.error` and the catch-log-rethrow blocks are left out. A driver error is passed on unchanged, which is what the rethrow does.
- `QueryBuilding.QueryBuilder.Select`, `From`, `Where`, `OrderBy`, `Limit`: these return nothing instead of `this`. A chain is written as successive calls on one object, or as a call list given to `Replay`.
- `QueryBuilding.QueryBuilder.Build`: the model returns the parameters as a value. The source returns the builder's own array, so a later `where` on the same builder would extend an already returned list too. The model callers copy it (`[...query.params]`), so this aliasing has no effect on them.
- `QueryBuilding.QueryBuilder.Select`: the source keeps the caller's array by reference, so a caller that later changes that array changes the rendered projection too. The model copies the list by value. No operation of the model layer calls `select`.
- `Strings.NatToString`: limits are natural numbers rendered in plain decimal. JavaScript prints negative and fractional numbers, and numbers from 10^21 up in exponent form, and it loses precision above 2^53. None of this is modelled.
- `Values.Value`: numbers are integers; floating-point values are not modelled.
- `Models.Save`, `Models.Update`, `Models.Delete`: only their failure on a missing builder method is modelled. The SQL they were meant to send (INSERT, UPDATE, DELETE) and the many-to-many join are not determined by the builder as written.
- JavaScript prototype lookups are read as absent. These are relation names or instance keys that name an inherited member, such as "toString", "constructor" or "save".
- A relation's target class is held by value. So a reassignment of the target's static `tableName` after `defineRelation` would not be seen. The code never reassigns it.
- `Values.Message`: for a `TypeError`, the wording is the JavaScript engine's and is only approximated.
- Deno would refuse to type-check the calls to missing builder methods. The model follows what the code does when it runs.
