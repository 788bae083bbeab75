/** The active-record layer: model classes, the relation registry their
    statics share, and the queries `findAll`, `findById` and `loadRelation`
    compose from builder calls. The database is the connection's `execute`
    function; every operation reports the statements it sent. */
module Models {
  import opened Values
  import opened Strings
  import opened QueryBuilding

  // ---------------------------------------------------------------------
  // Configuration

  /** The value of a relation descriptor's `type`. The declared type admits
      the first three only; `Unrecognised` is any other value reaching the
      `default` arm of the switch. */
  datatype RelationType = OneToOne | OneToMany | ManyToMany | Unrecognised(tag: string)

  /** A model subclass as far as the core reads it: its class name (used in
      error messages) and its static `tableName`, `None` when the class never
      overrides it and it stays `undefined`. */
  datatype ModelClass = ModelClass(name: string, tableName: Option<string>)

  /** A relation descriptor. The key names are optional, as declared. */
  datatype RelationConfig = RelationConfig(
    relType: RelationType,
    targetModel: ModelClass,
    localKey: Option<string>,
    foreignKey: Option<string>,
    throughTable: Option<string>,
    throughLocalKey: Option<string>,
    throughForeignKey: Option<string>)

  /** The database: runs a statement with its positional parameters and
      returns the rows, or the driver's error. */
  datatype Connection = Connection(execute: (string, seq<Value>) -> Result<seq<Row>>)

  /** The statics every model class reads through the base class: the one
      connection and the one relation registry. */
  datatype Config = Config(connection: Option<Connection>, relations: map<string, RelationConfig>)

  /** The enumerable fields of a model instance. */
  type Fields = map<string, Value>

  /** The outcome of an operation together with the statements it sent to
      the connection, in order. */
  datatype Run<T> = Run(sent: seq<Query>, result: Result<T>)

  /** `loadRelation` returns one row or `null` for one-to-one, a row list
      otherwise. */
  datatype RelationResult = Single(row: Option<Row>) | Many(rows: seq<Row>)

  /** The base class's statics. `relations` is initialised once, on the
      base class, and every subclass reaches that same object. */
  class ModelStatics {
    var connection: Option<Connection>
    var relations: map<string, RelationConfig>

    constructor ()
      ensures connection == None && relations == map[]
    {
      connection := None;
      relations := map[];
    }

    function Snapshot(): Config
      reads this
    {
      Config(connection, relations)
    }

    /** `Model.connection = db`. */
    method SetConnection(db: Connection)
      modifies this
      ensures connection == Some(db) && relations == old(relations)
    {
      connection := Some(db);
    }

    /** `defineRelation(name, config)`, on whichever subclass it is called:
        the shared registry maps `name` to `config`, every other entry and
        the connection stay as they were. */
    method DefineRelation(name: string, config: RelationConfig)
      modifies this
      ensures relations == old(relations)[name := config]
      ensures forall other :: other != name ==>
        (other in relations <==> other in old(relations)) &&
        (other in relations ==> relations[other] == old(relations)[other])
      ensures connection == old(connection)
    {
      relations := relations[name := config];
    }
  }

  // ---------------------------------------------------------------------
  // JavaScript property and template semantics

  /** `${k}` for an optional key: a missing one prints as "undefined". */
  function Template(k: Option<string>): string
  {
    match k
    case None => "undefined"
    case Some(s) => s
  }

  /** `instance[key]`: a field that is not there reads as `undefined`. */
  function Field(instance: Fields, key: string): Value
  {
    if key in instance then instance[key] else Undefined
  }

  /** `Object.assign(target, source)`: every key of the source is copied
      over, overriding the target's value; the target's other keys keep
      theirs; nothing else appears. */
  function Assign(target: Fields, source: Row): (r: Fields)
    ensures r.Keys == target.Keys + source.Keys
    ensures forall k :: k in source ==> r[k] == source[k]
    ensures forall k :: k in target && k !in source ==> r[k] == target[k]
  {
    target + source
  }

  /** The fields of `new this()`: the declared optional `id`, not yet set. */
  function FreshFields(): Fields
  {
    map["id" := Undefined]
  }

  /** The instance `findById` returns for a row: the row's fields, plus an
      undefined `id` when the row has no `id` column. */
  ghost predicate Hydrates(instance: Fields, row: Row)
  {
    && instance.Keys == row.Keys + {"id"}
    && (forall k :: k in row ==> instance[k] == row[k])
    && ("id" !in row ==> instance["id"] == Undefined)
  }

  /** A table name that passes the builder's falsy check. */
  predicate TableSet(cls: ModelClass)
  {
    cls.tableName.Some? && cls.tableName.value != ""
  }

  // ---------------------------------------------------------------------
  // The three builder chains the model uses

  /** `new QueryBuilder().from(t).build()`. */
  lemma {:induction false} SelectAllRendered(t: Option<string>)
    ensures Render(Replay([FromCall(t)])) ==
      if t == None || t == Some("") then Failure(TableNotSpecified)
      else Success(Query("SELECT * FROM " + t.value, []))
  {
    ReplaySnoc([], FromCall(t));
    assert [] + [FromCall(t)] == [FromCall(t)];
    var st := BuilderState([], t, [], [], None, []);
    assert Replay([FromCall(t)]) == st;
    if t.Some? && t.value != "" {
      var r := Render(st);
      var head := "SELECT " + "*" + " FROM " + t.value;
      assert r.value.text == head + "" + "" + "";
      assert head + "" + "" + "" == head;
      StarPrefix(t.value);
      assert r == Success(Query("SELECT * FROM " + t.value, []));
    }
  }

  /** The states the filtered chain passes through. */
  lemma {:induction false} FilterChainStates(t: Option<string>, cond: string, v: Value)
    ensures Replay([FromCall(t), WhereCall(cond, [v])]) == BuilderState([], t, [cond], [], None, [v])
    ensures Replay([FromCall(t), WhereCall(cond, [v]), LimitCall(1)]) ==
      BuilderState([], t, [cond], [], Some(1), [v])
  {
    ReplaySnoc([], FromCall(t));
    assert [] + [FromCall(t)] == [FromCall(t)];
    ReplaySnoc([FromCall(t)], WhereCall(cond, [v]));
    assert [FromCall(t)] + [WhereCall(cond, [v])] == [FromCall(t), WhereCall(cond, [v])];
    ReplaySnoc([FromCall(t), WhereCall(cond, [v])], LimitCall(1));
    assert [FromCall(t), WhereCall(cond, [v])] + [LimitCall(1)] == [FromCall(t), WhereCall(cond, [v]), LimitCall(1)];
  }

  /** `new QueryBuilder().from(t).where(`${column} = $1`, [v]).build()`. */
  lemma {:induction false} SelectWhereRendered(t: Option<string>, column: string, v: Value)
    ensures Render(Replay([FromCall(t), WhereCall(column + " = $1", [v])])) ==
      if t == None || t == Some("") then Failure(TableNotSpecified)
      else Success(Query("SELECT * FROM " + t.value + " WHERE " + column + " = $1", [v]))
  {
    var cond := column + " = $1";
    FilterChainStates(t, cond, v);
    var st := BuilderState([], t, [cond], [], None, [v]);
    if t.Some? && t.value != "" {
      var r := Render(st);
      assert Join([cond], " AND ") == cond;
      var head := "SELECT " + "*" + " FROM " + t.value;
      assert r.value.text == head + (" WHERE " + cond) + "" + "";
      assert head + (" WHERE " + cond) + "" + "" == head + " WHERE " + column + " = $1";
      StarPrefix(t.value);
      assert r == Success(Query("SELECT * FROM " + t.value + " WHERE " + column + " = $1", [v]));
    }
  }

  /** `new QueryBuilder().from(t).where(`${column} = $1`, [v]).limit(1).build()`. */
  lemma {:induction false} SelectWhereLimitOneRendered(t: Option<string>, column: string, v: Value)
    ensures Render(Replay([FromCall(t), WhereCall(column + " = $1", [v]), LimitCall(1)])) ==
      if t == None || t == Some("") then Failure(TableNotSpecified)
      else Success(Query("SELECT * FROM " + t.value + " WHERE " + column + " = $1 LIMIT 1", [v]))
  {
    var cond := column + " = $1";
    FilterChainStates(t, cond, v);
    var st := BuilderState([], t, [cond], [], Some(1), [v]);
    if t.Some? && t.value != "" {
      LimitOneText(t.value, column);
      var r := Render(st);
      assert Join([cond], " AND ") == cond;
      assert NatToString(1) == "1";
      assert r.value.text == "SELECT " + "*" + " FROM " + t.value + (" WHERE " + cond) + "" + (" LIMIT " + "1");
    }
  }

  /** The text pieces of the one-row filtered select merge into one literal. */
  lemma LimitOneText(table: string, column: string)
    ensures "SELECT " + "*" + " FROM " + table + (" WHERE " + (column + " = $1")) + "" + (" LIMIT " + "1") ==
      "SELECT * FROM " + table + " WHERE " + column + " = $1 LIMIT 1"
  {
    StarPrefix(table);
    assert " = $1" + " LIMIT " + "1" == " = $1 LIMIT 1";
  }

  /** The projection `*` merges with the keywords around it. */
  lemma StarPrefix(table: string)
    ensures "SELECT " + "*" + " FROM " + table == "SELECT * FROM " + table
  {
    assert "SELECT " + "*" + " FROM " == "SELECT * FROM ";
  }

  // ---------------------------------------------------------------------
  // Class-level queries

  /** `findAll()`: builds first (failing on an unset table), then takes the
      client (failing on an unset connection), then sends
      `SELECT * FROM <table>` without parameters and returns the rows as
      they come, unhydrated; a driver error is passed on unchanged. */
  function FindAll(cfg: Config, cls: ModelClass): (r: Run<seq<Row>>)
    ensures !TableSet(cls) ==> r == Run([], Failure(TableNotSpecified))
    ensures TableSet(cls) && cfg.connection == None ==> r == Run([], Failure(ClientUnavailable))
    ensures TableSet(cls) && cfg.connection.Some? ==>
      var text := "SELECT * FROM " + cls.tableName.value;
      r.sent == [Query(text, [])] && r.result == cfg.connection.value.execute(text, [])
  {
    SelectAllRendered(cls.tableName);
    var built := Render(Replay([FromCall(cls.tableName)]));
    if built.Failure? then Run([], Failure(built.error))
    else if cfg.connection == None then Run([], Failure(ClientUnavailable))
    else Run([built.value], cfg.connection.value.execute(built.value.text, built.value.params))
  }

  /** `findById(id)`: refuses an unset connection before building anything;
      otherwise sends `SELECT * FROM <table> WHERE id = $1` with `[id]`,
      answers `null` exactly when no row comes back, and otherwise a fresh
      instance hydrated from the first row. */
  function FindById(cfg: Config, cls: ModelClass, id: int): (r: Run<Option<Fields>>)
    ensures cfg.connection == None ==> r == Run([], Failure(ConnectionNotInitialized))
    ensures cfg.connection.Some? && !TableSet(cls) ==> r == Run([], Failure(TableNotSpecified))
    ensures cfg.connection.Some? && TableSet(cls) ==>
      var text := "SELECT * FROM " + cls.tableName.value + " WHERE id = $1";
      var answer := cfg.connection.value.execute(text, [VNumber(id)]);
      && r.sent == [Query(text, [VNumber(id)])]
      && (answer.Failure? ==> r.result == Failure(answer.error))
      && (answer.Success? ==> r.result.Success? && (r.result.value == None <==> |answer.value| == 0))
      && (answer.Success? && |answer.value| > 0 ==>
            r.result.value.Some? && Hydrates(r.result.value.value, answer.value[0]))
  {
    if cfg.connection == None then Run([], Failure(ConnectionNotInitialized))
    else
      SelectWhereRendered(cls.tableName, "id", VNumber(id));
      assert "id" + " = $1" == "id = $1";
      assert cls.tableName.Some? ==>
        "SELECT * FROM " + cls.tableName.value + " WHERE " + "id" + " = $1" == "SELECT * FROM " + cls.tableName.value + " WHERE id = $1";
      var built := Render(Replay([FromCall(cls.tableName), WhereCall("id = $1", [VNumber(id)])]));
      if built.Failure? then Run([], Failure(built.error))
      else
        var q := built.value;
        match cfg.connection.value.execute(q.text, q.params)
        case Failure(e) => Run([q], Failure(e))
        case Success(rows) =>
          if |rows| == 0 then Run([q], Success(None))
          else Run([q], Success(Some(Assign(FreshFields(), rows[0]))))
  }

  /** When the first row carries an `id` column, the instance `findById`
      returns has exactly that row's fields. */
  lemma HydratedIsRow(row: Row)
    requires "id" in row
    ensures Assign(FreshFields(), row) == row
  {
  }

  // ---------------------------------------------------------------------
  // Relations

  /** The statement the relation switch builds for a descriptor: for
      one-to-one `SELECT * FROM <target> WHERE <foreignKey> = $1 LIMIT 1`,
      for one-to-many the same without LIMIT, both with the instance's
      local-key value as the only parameter; many-to-many stops at the
      builder's missing `join`; any other type is unsupported. */
  function RelationQuery(rel: RelationConfig, instance: Fields): (r: Result<Query>)
    ensures (rel.relType == OneToOne || rel.relType == OneToMany) && !TableSet(rel.targetModel) ==>
      r == Failure(TableNotSpecified)
    ensures rel.relType == OneToOne && TableSet(rel.targetModel) ==>
      r == Success(Query(
        "SELECT * FROM " + rel.targetModel.tableName.value + " WHERE " + Template(rel.foreignKey) + " = $1 LIMIT 1",
        [Field(instance, Template(rel.localKey))]))
    ensures rel.relType == OneToMany && TableSet(rel.targetModel) ==>
      r == Success(Query(
        "SELECT * FROM " + rel.targetModel.tableName.value + " WHERE " + Template(rel.foreignKey) + " = $1",
        [Field(instance, Template(rel.localKey))]))
    ensures rel.relType == ManyToMany ==> r == Failure(MissingBuilderMethod("join"))
    ensures rel.relType.Unrecognised? ==> r == Failure(UnsupportedRelationType(rel.relType.tag))
  {
    var key := Field(instance, Template(rel.localKey));
    var from := FromCall(rel.targetModel.tableName);
    var filter := WhereCall(Template(rel.foreignKey) + " = $1", [key]);
    match rel.relType
    case OneToOne =>
      SelectWhereLimitOneRendered(rel.targetModel.tableName, Template(rel.foreignKey), key);
      Render(Replay([from, filter, LimitCall(1)]))
    case OneToMany =>
      SelectWhereRendered(rel.targetModel.tableName, Template(rel.foreignKey), key);
      Render(Replay([from, filter]))
    case ManyToMany =>
      Failure(MissingBuilderMethod("join"))
    case Unrecognised(tag) =>
      Failure(UnsupportedRelationType(tag))
  }

  /** `loadRelation(name)` on an instance of `self`: an unknown name fails
      before the client is taken or anything is built; then an unset
      connection fails; then the switch's statement is sent, and one-to-one
      answers the first row or `null`, the other types all rows. */
  function LoadRelation(cfg: Config, self: ModelClass, instance: Fields, name: string): (r: Run<RelationResult>)
    ensures name !in cfg.relations ==> r == Run([], Failure(RelationNotDefined(name, self.name)))
    ensures name in cfg.relations && cfg.connection == None ==> r == Run([], Failure(ClientUnavailable))
    ensures name in cfg.relations && cfg.connection.Some? ==>
      var rel := cfg.relations[name];
      var built := RelationQuery(rel, instance);
      && (built.Failure? ==> r == Run([], Failure(built.error)))
      && (built.Success? ==>
            var answer := cfg.connection.value.execute(built.value.text, built.value.params);
            && r.sent == [built.value]
            && (answer.Failure? ==> r.result == Failure(answer.error))
            && (answer.Success? && rel.relType == OneToOne ==>
                  r.result == Success(Single(if |answer.value| == 0 then None else Some(answer.value[0]))))
            && (answer.Success? && rel.relType != OneToOne ==> r.result == Success(Many(answer.value))))
  {
    if name !in cfg.relations then Run([], Failure(RelationNotDefined(name, self.name)))
    else if cfg.connection == None then Run([], Failure(ClientUnavailable))
    else
      var rel := cfg.relations[name];
      match RelationQuery(rel, instance)
      case Failure(e) => Run([], Failure(e))
      case Success(q) =>
        match cfg.connection.value.execute(q.text, q.params)
        case Failure(e) => Run([q], Failure(e))
        case Success(rows) =>
          if rel.relType == OneToOne then
            Run([q], Success(Single(if |rows| == 0 then None else Some(rows[0]))))
          else
            Run([q], Success(Many(rows)))
  }

  /** There is one registry: once a name is defined, every model class
      resolves it to the same descriptor and the same statement, whichever
      class defined it. */
  lemma RegistryIsShared(cfg: Config, a: ModelClass, b: ModelClass, instance: Fields, name: string)
    requires name in cfg.relations
    ensures LoadRelation(cfg, a, instance, name) == LoadRelation(cfg, b, instance, name)
  {
  }

  /** A defined one-to-many relation, with a connection and a target table
      set, sends exactly one statement: the target's rows whose foreign key
      equals the instance's local-key value. */
  lemma OneToManyLoadSends(cfg: Config, self: ModelClass, instance: Fields, name: string)
    requires name in cfg.relations && cfg.connection.Some?
    requires cfg.relations[name].relType == OneToMany && TableSet(cfg.relations[name].targetModel)
    ensures
      var rel := cfg.relations[name];
      LoadRelation(cfg, self, instance, name).sent == [Query(
        "SELECT * FROM " + rel.targetModel.tableName.value + " WHERE " + Template(rel.foreignKey) + " = $1",
        [Field(instance, Template(rel.localKey))])]
  {
  }

  /** The setup of the example application: `User` registers "posts" and
      `Post` registers "user", both into the one registry. A `Post` instance
      can then load "posts" too; it is not refused as undefined but sends
      the `User` relation's statement, keyed by the post's own `id`. */
  lemma PostResolvesUsersRelation(db: Connection, post: Fields)
    ensures
      var users := ModelClass("User", Some("users"));
      var posts := ModelClass("Post", Some("posts"));
      var registry := map[]
        ["posts" := RelationConfig(OneToMany, posts, Some("id"), Some("user_id"), None, None, None)]
        ["user" := RelationConfig(OneToOne, users, Some("user_id"), Some("id"), None, None, None)];
      LoadRelation(Config(Some(db), registry), posts, post, "posts").sent
        == [Query("SELECT * FROM posts WHERE user_id = $1", [Field(post, "id")])]
  {
    var users := ModelClass("User", Some("users"));
    var posts := ModelClass("Post", Some("posts"));
    var registry := map[]
      ["posts" := RelationConfig(OneToMany, posts, Some("id"), Some("user_id"), None, None, None)]
      ["user" := RelationConfig(OneToOne, users, Some("user_id"), Some("id"), None, None, None)];
    var cfg := Config(Some(db), registry);
    var rel := registry["posts"];
    assert rel.relType == OneToMany && rel.targetModel == posts;
    assert Template(rel.foreignKey) == "user_id" && Template(rel.localKey) == "id";
    OneToManyLoadSends(cfg, posts, post, "posts");
    var text := "SELECT * FROM " + "posts" + " WHERE " + "user_id" + " = $1";
    assert LoadRelation(cfg, posts, post, "posts").sent == [Query(text, [Field(post, "id")])];
    PostsByUserText();
  }

  lemma PostsByUserText()
    ensures "SELECT * FROM " + "posts" + " WHERE " + "user_id" + " = $1" == "SELECT * FROM posts WHERE user_id = $1"
  {
    assert "SELECT * FROM " + "posts" == "SELECT * FROM posts";
    assert "SELECT * FROM posts" + " WHERE " == "SELECT * FROM posts WHERE ";
    assert "SELECT * FROM posts WHERE " + "user_id" == "SELECT * FROM posts WHERE user_id";
    assert "SELECT * FROM posts WHERE user_id" + " = $1" == "SELECT * FROM posts WHERE user_id = $1";
  }

  /** The example application run on the statics object: the connection is
      assigned, `User` and `Post` register their relations, and a `Post`
      instance then loads "posts", which sends the `User` relation's
      statement keyed by the post's own `id` and answers the rows as they
      come back. */
  method ExampleApplication(db: Connection, post: Fields) returns (run: Run<RelationResult>)
    ensures run.sent == [Query("SELECT * FROM posts WHERE user_id = $1", [Field(post, "id")])]
    ensures var answer := db.execute("SELECT * FROM posts WHERE user_id = $1", [Field(post, "id")]);
      run.result == if answer.Failure? then Failure(answer.error) else Success(Many(answer.value))
  {
    var users := ModelClass("User", Some("users"));
    var posts := ModelClass("Post", Some("posts"));
    var statics := new ModelStatics();
    statics.SetConnection(db);
    statics.DefineRelation("posts", RelationConfig(OneToMany, posts, Some("id"), Some("user_id"), None, None, None));
    statics.DefineRelation("user", RelationConfig(OneToOne, users, Some("user_id"), Some("id"), None, None, None));
    PostResolvesUsersRelation(db, post);
    run := LoadRelation(statics.Snapshot(), posts, post, "posts");
  }

  /** The statement `findById` builds, built on a `QueryBuilder` object:
      `from(table).where("id = $1", [id]).build()`. */
  method BuildFindByIdQuery(table: string, id: int) returns (r: Result<Query>)
    ensures table == "" ==> r == Failure(TableNotSpecified)
    ensures table != "" ==> r == Success(Query("SELECT * FROM " + table + " WHERE id = $1", [VNumber(id)]))
  {
    var builder := new QueryBuilder();
    builder.From(table);
    builder.Where("id = $1", [VNumber(id)]);
    assert "id" + " = $1" == "id = $1";
    assert builder.history == [FromCall(Some(table)), WhereCall("id" + " = $1", [VNumber(id)])];
    SelectWhereRendered(Some(table), "id", VNumber(id));
    assert " WHERE " + "id" + " = $1" == " WHERE id = $1";
    assert "SELECT * FROM " + table + " WHERE " + "id" + " = $1" == "SELECT * FROM " + table + " WHERE id = $1";
    r := builder.Build();
  }

  // ---------------------------------------------------------------------
  // Writes

  /** `save()`: the builder has no `insert`, so it throws before sending. */
  function Save(cfg: Config, cls: ModelClass, instance: Fields): (r: Run<Fields>)
    ensures r.sent == []
    ensures r.result.Failure? && Message(r.result.error) == "insert is not a function"
  {
    Run([], Failure(MissingBuilderMethod("insert")))
  }

  /** `update(data)`: the builder has no `update`, so it throws before sending. */
  function Update(cfg: Config, cls: ModelClass, instance: Fields, data: Fields): (r: Run<Fields>)
    ensures r.sent == []
    ensures r.result.Failure? && Message(r.result.error) == "update is not a function"
  {
    Run([], Failure(MissingBuilderMethod("update")))
  }

  /** `delete()`: the builder has no `delete`, so it throws before sending. */
  function Delete(cfg: Config, cls: ModelClass, instance: Fields): (r: Run<()>)
    ensures r.sent == []
    ensures r.result.Failure? && Message(r.result.error) == "delete is not a function"
  {
    Run([], Failure(MissingBuilderMethod("delete")))
  }

  /** No write operation and no many-to-many load ever reaches the
      connection: each stops at a builder method that does not exist. */
  lemma WritesNeverReachConnection(cfg: Config, cls: ModelClass, instance: Fields, data: Fields,
                                  self: ModelClass, name: string)
    ensures Save(cfg, cls, instance).sent == [] && Save(cfg, cls, instance).result.Failure?
    ensures Update(cfg, cls, instance, data).sent == [] && Update(cfg, cls, instance, data).result.Failure?
    ensures Delete(cfg, cls, instance).sent == [] && Delete(cfg, cls, instance).result.Failure?
    ensures name in cfg.relations && cfg.relations[name].relType == ManyToMany ==>
      LoadRelation(cfg, self, instance, name).sent == [] &&
      LoadRelation(cfg, self, instance, name).result.Failure?
  {
  }
}
