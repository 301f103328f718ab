/** The adapter `createCRUDFromConfiguration` of src/index.ts: it flattens the object-shaped
    router configuration into the tuple-shaped options of the factory, through an entry list
    and `Object.fromEntries(new Map(...))`, and hands them to the factory. */
module Configuration {
  import opened Js
  import opened Express
  import opened Factory

  /** The `options` object of an endpoint configuration. */
  datatype EndpointOptions = EndpointOptions(param: JsString)

  /** `IEndpointConfuguration`: a callback and optional options. */
  datatype EndpointConfiguration = EndpointConfiguration(callback: Handler, options: Option<EndpointOptions>)

  /** `IRouterConfiguration`: the base endpoint, one optional object per operation and an
      optional mount list. */
  datatype RouterConfiguration = RouterConfiguration(
    endpoint: string,
    index: Option<EndpointConfiguration>,
    find: Option<EndpointConfiguration>,
    create: Option<EndpointConfiguration>,
    update: Option<EndpointConfiguration>,
    delete: Option<EndpointConfiguration>,
    use: Option<seq<UseOption>>)

  /** The configuration object of one operation (`config[key]`). */
  function ConfigLookup(cfg: RouterConfiguration, op: Op): Option<EndpointConfiguration> {
    match op
    case Index => cfg.index
    case Find => cfg.find
    case Create => cfg.create
    case Update => cfg.update
    case Delete => cfg.delete
  }

  /** The `[param, callback]` tuple built for one endpoint object: the parameter is
      `options.param` when both are truthy and `null` otherwise. */
  function Flatten(e: EndpointConfiguration): (t: Endpoint)
    ensures t.callback == e.callback
    ensures Truthy(t.param) <==> e.options.Some? && Truthy(e.options.value.param)
    ensures !Truthy(t.param) ==> t.param == None
    ensures Truthy(t.param) ==> t.param == e.options.value.param
  {
    var param := if e.options.Some? && Truthy(e.options.value.param) then e.options.value.param else None;
    Endpoint(param, e.callback)
  }

  /** A key of the adapter's key list. */
  datatype Key = OpKey(op: Op) | UseKey

  /** The keys the adapter walks, in order. */
  const Keys: seq<Key> := [OpKey(Index), OpKey(Find), OpKey(Create), OpKey(Update), OpKey(Delete), UseKey]

  /** One `[key, value]` pair pushed by the adapter. */
  datatype Entry = OpEntry(op: Op, value: Endpoint) | UseEntry(uses: seq<UseOption>)

  function KeyOf(e: Entry): Key {
    match e
    case OpEntry(op, _) => OpKey(op)
    case UseEntry(_) => UseKey
  }

  /** The reducer: push the flattened tuple of a configured operation, or the mount list
      verbatim, and leave `result` unchanged for a missing key. */
  function Step(cfg: RouterConfiguration, result: seq<Entry>, key: Key): seq<Entry> {
    match key
    case OpKey(op) =>
      if ConfigLookup(cfg, op).Some? then result + [OpEntry(op, Flatten(ConfigLookup(cfg, op).value))] else result
    case UseKey =>
      if cfg.use.Some? then result + [UseEntry(cfg.use.value)] else result
  }

  /** `keys.reduce(step, acc)`, left to right. */
  function Reduce(cfg: RouterConfiguration, keys: seq<Key>, acc: seq<Entry>): seq<Entry>
    decreases |keys|
  {
    if keys == [] then acc else Reduce(cfg, keys[1..], Step(cfg, acc, keys[0]))
  }

  /** The entry list the adapter builds. */
  function Entries(cfg: RouterConfiguration): seq<Entry> {
    Reduce(cfg, Keys, [])
  }

  /** The value a `Map` built from `es` holds for an operation key: the last one set. */
  function LastOp(es: seq<Entry>, op: Op): Option<Endpoint>
    decreases |es|
  {
    if es == [] then None
    else if es[|es| - 1].OpEntry? && es[|es| - 1].op == op then Some(es[|es| - 1].value)
    else LastOp(es[..|es| - 1], op)
  }

  /** The value a `Map` built from `es` holds for the `use` key: the last one set. */
  function LastUse(es: seq<Entry>): Option<seq<UseOption>>
    decreases |es|
  {
    if es == [] then None
    else if es[|es| - 1].UseEntry? then Some(es[|es| - 1].uses)
    else LastUse(es[..|es| - 1])
  }

  /** Entry `i` is the last entry of `es` with key `k`: no later entry sets `k` again. */
  predicate LastSet(es: seq<Entry>, k: Key, i: int) {
    0 <= i < |es| && KeyOf(es[i]) == k && forall j :: i < j < |es| ==> KeyOf(es[j]) != k
  }

  /** An operation holds nothing exactly when no entry sets it. */
  lemma {:induction false} LastOpNone(es: seq<Entry>, op: Op)
    ensures LastOp(es, op).None? <==> forall e :: e in es ==> KeyOf(e) != OpKey(op)
    decreases |es|
  {
    if es != [] {
      assert forall e :: e in es <==> e in es[..|es| - 1] || e == es[|es| - 1] by {
        assert es == es[..|es| - 1] + [es[|es| - 1]];
      }
      var last := es[|es| - 1];
      assert KeyOf(last) == OpKey(op) <==> last.OpEntry? && last.op == op;
      LastOpNone(es[..|es| - 1], op);
    }
  }

  /** An operation holds the value of the last entry that sets it. */
  lemma {:induction false} LastOpLast(es: seq<Entry>, op: Op, i: int)
    requires LastSet(es, OpKey(op), i)
    ensures es[i].OpEntry? && LastOp(es, op) == Some(es[i].value)
    decreases |es|
  {
    if i < |es| - 1 {
      LastOpLast(es[..|es| - 1], op, i);
    }
  }

  /** `use` holds nothing exactly when no entry sets it. */
  lemma {:induction false} LastUseNone(es: seq<Entry>)
    ensures LastUse(es).None? <==> forall e :: e in es ==> KeyOf(e) != UseKey
    decreases |es|
  {
    if es != [] {
      assert forall e :: e in es <==> e in es[..|es| - 1] || e == es[|es| - 1] by {
        assert es == es[..|es| - 1] + [es[|es| - 1]];
      }
      var last := es[|es| - 1];
      assert KeyOf(last) == UseKey <==> last.UseEntry?;
      LastUseNone(es[..|es| - 1]);
    }
  }

  /** `use` holds the value of the last entry that sets it. */
  lemma {:induction false} LastUseLast(es: seq<Entry>, i: int)
    requires LastSet(es, UseKey, i)
    ensures es[i].UseEntry? && LastUse(es) == Some(es[i].uses)
    decreases |es|
  {
    if i < |es| - 1 {
      LastUseLast(es[..|es| - 1], i);
    }
  }

  /** `Object.fromEntries(new Map(es))`: a key the list never sets is missing, and a key it
      sets holds the value of its last entry, later entries overriding earlier ones. */
  function FromEntries(es: seq<Entry>): (o: Options)
    ensures forall op :: Lookup(o, op).None? <==> forall e :: e in es ==> KeyOf(e) != OpKey(op)
    ensures forall op, i :: LastSet(es, OpKey(op), i) ==>
      es[i].OpEntry? && Lookup(o, op) == Some(es[i].value)
    ensures o.use.None? <==> forall e :: e in es ==> KeyOf(e) != UseKey
    ensures forall i :: LastSet(es, UseKey, i) ==> es[i].UseEntry? && o.use == Some(es[i].uses)
  {
    FromEntriesLastWins(es);
    var o := Options(LastOp(es, Index), LastOp(es, Find), LastOp(es, Create), LastOp(es, Update),
                     LastOp(es, Delete), LastUse(es));
    assert forall op :: Lookup(o, op) == LastOp(es, op);
    o
  }

  /** The last-entry-wins reading of `LastOp` and `LastUse`, for every key at once. */
  lemma FromEntriesLastWins(es: seq<Entry>)
    ensures forall op :: LastOp(es, op).None? <==> forall e :: e in es ==> KeyOf(e) != OpKey(op)
    ensures forall op, i :: LastSet(es, OpKey(op), i) ==> es[i].OpEntry? && LastOp(es, op) == Some(es[i].value)
    ensures LastUse(es).None? <==> forall e :: e in es ==> KeyOf(e) != UseKey
    ensures forall i :: LastSet(es, UseKey, i) ==> es[i].UseEntry? && LastUse(es) == Some(es[i].uses)
  {
    forall op {
      LastOpNone(es, op);
    }
    forall op, i | LastSet(es, OpKey(op), i) {
      LastOpLast(es, op, i);
    }
    LastUseNone(es);
    forall i | LastSet(es, UseKey, i) {
      LastUseLast(es, i);
    }
  }

  /** Reference for the adapter's output: each configured operation carries its flattened
      tuple, and `use` is copied verbatim. */
  function DirectOptions(cfg: RouterConfiguration): Options {
    Options(FlattenOption(cfg.index), FlattenOption(cfg.find), FlattenOption(cfg.create),
            FlattenOption(cfg.update), FlattenOption(cfg.delete), cfg.use)
  }

  function FlattenOption(e: Option<EndpointConfiguration>): Option<Endpoint> {
    if e.Some? then Some(Flatten(e.value)) else None
  }

  /** After reducing over `keys`, an operation holds its flattened tuple if its key was
      walked and it is configured, and whatever it held before otherwise. */
  lemma {:induction false} ReduceLastOp(cfg: RouterConfiguration, keys: seq<Key>, acc: seq<Entry>, op: Op)
    ensures LastOp(Reduce(cfg, keys, acc), op)
         == if OpKey(op) in keys && ConfigLookup(cfg, op).Some?
            then Some(Flatten(ConfigLookup(cfg, op).value))
            else LastOp(acc, op)
    decreases |keys|
  {
    if keys != [] {
      var acc' := Step(cfg, acc, keys[0]);
      ReduceLastOp(cfg, keys[1..], acc', op);
      assert keys == [keys[0]] + keys[1..];
      if acc' != acc {
        assert acc'[..|acc|] == acc;
      }
    }
  }

  /** After reducing over `keys`, `use` holds the mount list if its key was walked and it
      is given, and whatever it held before otherwise. */
  lemma {:induction false} ReduceLastUse(cfg: RouterConfiguration, keys: seq<Key>, acc: seq<Entry>)
    ensures LastUse(Reduce(cfg, keys, acc))
         == if UseKey in keys && cfg.use.Some? then cfg.use else LastUse(acc)
    decreases |keys|
  {
    if keys != [] {
      var acc' := Step(cfg, acc, keys[0]);
      ReduceLastUse(cfg, keys[1..], acc');
      assert keys == [keys[0]] + keys[1..];
      if acc' != acc {
        assert acc'[..|acc|] == acc;
      }
    }
  }

  /** Every key the options object can hold is walked by the adapter. */
  lemma KeysListed()
    ensures forall op :: OpKey(op) in Keys
    ensures UseKey in Keys
  {
    forall op ensures OpKey(op) in Keys {
      assert Keys[Rank(op)] == OpKey(op);
    }
    assert Keys[5] == UseKey;
  }

  /** The options the adapter builds are the field-wise flattening of the configuration. */
  lemma AdapterOptions(cfg: RouterConfiguration)
    ensures FromEntries(Entries(cfg)) == DirectOptions(cfg)
  {
    var es := Entries(cfg);
    KeysListed();
    forall op ensures LastOp(es, op) == FlattenOption(ConfigLookup(cfg, op)) {
      ReduceLastOp(cfg, Keys, [], op);
    }
    ReduceLastUse(cfg, Keys, []);
    var o := FromEntries(es);
    var d := DirectOptions(cfg);
    assert o.index == Lookup(o, Index) == FlattenOption(cfg.index) == d.index;
    assert o.find == Lookup(o, Find) == FlattenOption(cfg.find) == d.find;
    assert o.create == Lookup(o, Create) == FlattenOption(cfg.create) == d.create;
    assert o.update == Lookup(o, Update) == FlattenOption(cfg.update) == d.update;
    assert o.delete == Lookup(o, Delete) == FlattenOption(cfg.delete) == d.delete;
  }

  /** `createCRUDFromConfiguration` as written: build the entry list, turn it into an options
      object, and call the factory with the configured endpoint. It registers exactly what the
      factory registers for the flattened configuration. */
  method CreateCRUDFromConfiguration(join: PathJoin, cfg: RouterConfiguration) returns (router: Router)
    ensures router == Compiled(join, cfg.endpoint, DirectOptions(cfg))
  {
    var options := FromEntries(Reduce(cfg, Keys, []));
    AdapterOptions(cfg);
    router := CreateCRUD(join, cfg.endpoint, options);
  }

  /** Through the adapter, a configured operation is bound under its table verb to its own
      callback, at `endpoint` joined with `:param` when `options.param` is given and non-empty,
      and at `endpoint` unchanged when `options` or its `param` is missing or empty. */
  lemma AdapterBinding(join: PathJoin, cfg: RouterConfiguration, op: Op)
    requires ConfigLookup(cfg, op).Some?
    ensures var e := ConfigLookup(cfg, op).value;
            var path := if e.options.Some? && Truthy(e.options.value.param)
                        then join(cfg.endpoint, ":" + e.options.value.param.value)
                        else cfg.endpoint;
            exists i :: 0 <= i < |Compiled(join, cfg.endpoint, DirectOptions(cfg)).regs|
              && Compiled(join, cfg.endpoint, DirectOptions(cfg)).regs[i] == Bind(VerbOf(op), path, e.callback)
  {
    var o := DirectOptions(cfg);
    assert Lookup(o, op) == FlattenOption(ConfigLookup(cfg, op));
    OperationBinding(join, cfg.endpoint, o, op);
  }

  /** The configuration of the smoke test, `{endpoint: '', index: {callback: fn, options:
      {param: 'userId'}}}`, compiles to one GET binding at the join of '' and ':userId'. */
  lemma SmokeTestConfiguration(join: PathJoin, h: Handler)
    ensures var cfg := RouterConfiguration("", Some(EndpointConfiguration(h, Some(EndpointOptions(Some("userId"))))),
                                           None, None, None, None, None);
            Compiled(join, cfg.endpoint, DirectOptions(cfg)) == Router(true, [Bind(GET, join("", ":userId"), h)])
  {
    var cfg := RouterConfiguration("", Some(EndpointConfiguration(h, Some(EndpointOptions(Some("userId"))))),
                                   None, None, None, None, None);
    assert Truthy(Some("userId"));
    assert DirectOptions(cfg) == Options(Some(Endpoint(Some("userId"), h)), None, None, None, None, None);
    assert ":" + "userId" == ":userId";
    LoneIndex(join, "", Some("userId"), h);
  }

  /** No two entries of the list share a key. */
  predicate DistinctKeys(es: seq<Entry>) {
    forall i, j :: 0 <= i < j < |es| ==> KeyOf(es[i]) != KeyOf(es[j])
  }

  /** In a list without repeated keys, an operation holds a tuple exactly when the list has
      that entry. */
  lemma {:induction false} LastOpMember(es: seq<Entry>, op: Op, t: Endpoint)
    requires DistinctKeys(es)
    ensures LastOp(es, op) == Some(t) <==> OpEntry(op, t) in es
    decreases |es|
  {
    if es != [] {
      var init := es[..|es| - 1];
      var last := es[|es| - 1];
      assert es == init + [last];
      LastOpMember(init, op, t);
      if last.OpEntry? && last.op == op {
        assert OpEntry(op, t) in init ==> KeyOf(OpEntry(op, t)) != KeyOf(last);
      }
    }
  }

  /** In a list without repeated keys, `use` holds a list exactly when the list has that entry. */
  lemma {:induction false} LastUseMember(es: seq<Entry>, u: seq<UseOption>)
    requires DistinctKeys(es)
    ensures LastUse(es) == Some(u) <==> UseEntry(u) in es
    decreases |es|
  {
    if es != [] {
      var init := es[..|es| - 1];
      var last := es[|es| - 1];
      assert es == init + [last];
      LastUseMember(init, u);
      if last.UseEntry? {
        assert UseEntry(u) in init ==> KeyOf(UseEntry(u)) != KeyOf(last);
      }
    }
  }

  /** The order in which the entries are listed does not matter: two lists with the same
      entries and no repeated key give the same options object. */
  lemma EntryOrderIrrelevant(es1: seq<Entry>, es2: seq<Entry>)
    requires DistinctKeys(es1) && DistinctKeys(es2)
    requires forall e :: e in es1 <==> e in es2
    ensures FromEntries(es1) == FromEntries(es2)
  {
    forall op ensures LastOp(es1, op) == LastOp(es2, op) {
      if LastOp(es1, op).Some? {
        LastOpMember(es1, op, LastOp(es1, op).value);
        LastOpMember(es2, op, LastOp(es1, op).value);
      } else if LastOp(es2, op).Some? {
        LastOpMember(es1, op, LastOp(es2, op).value);
        LastOpMember(es2, op, LastOp(es2, op).value);
      }
    }
    if LastUse(es1).Some? {
      LastUseMember(es1, LastUse(es1).value);
      LastUseMember(es2, LastUse(es1).value);
    } else if LastUse(es2).Some? {
      LastUseMember(es1, LastUse(es2).value);
      LastUseMember(es2, LastUse(es2).value);
    }
    var o1 := FromEntries(es1);
    var o2 := FromEntries(es2);
    assert Lookup(o1, Index) == Lookup(o2, Index) && Lookup(o1, Find) == Lookup(o2, Find)
        && Lookup(o1, Create) == Lookup(o2, Create) && Lookup(o1, Update) == Lookup(o2, Update)
        && Lookup(o1, Delete) == Lookup(o2, Delete);
  }

  /** Reducing over keys that repeat neither each other nor a key already listed yields a
      list without repeated keys. */
  lemma {:induction false} ReduceDistinct(cfg: RouterConfiguration, keys: seq<Key>, acc: seq<Entry>)
    requires DistinctKeys(acc)
    requires forall i, j :: 0 <= i < j < |keys| ==> keys[i] != keys[j]
    requires forall e :: e in acc ==> KeyOf(e) !in keys
    ensures DistinctKeys(Reduce(cfg, keys, acc))
    decreases |keys|
  {
    if keys != [] {
      var acc' := Step(cfg, acc, keys[0]);
      assert forall e :: e in acc' ==> e in acc || KeyOf(e) == keys[0];
      assert forall k :: k in keys[1..] ==> k != keys[0];
      ReduceDistinct(cfg, keys[1..], acc');
    }
  }

  /** The adapter's entry list has no repeated key, so the order it lists them in does not
      matter to the options object it builds. */
  lemma EntriesDistinct(cfg: RouterConfiguration)
    ensures DistinctKeys(Entries(cfg))
  {
    ReduceDistinct(cfg, Keys, []);
  }
}
