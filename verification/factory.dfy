/** The route compiler `_routerMiddlewareFactory.create` of src/index.ts, also exported as
    `createCRUD`: it turns a base endpoint and up to five CRUD operations, plus a list of
    sub-router mounts, into the registrations made on a fresh Express router. */
module Factory {
  import opened Js
  import opened Express

  /** The five operations a configuration may name. */
  datatype Op = Index | Find | Create | Update | Delete

  /** The fixed order in which the operations are registered. */
  const Ops: seq<Op> := [Index, Find, Create, Update, Delete]

  /** Position of an operation in the registration order. */
  function Rank(op: Op): (r: nat)
    ensures r < |Ops| && Ops[r] == op
  {
    match op
    case Index => 0
    case Find => 1
    case Create => 2
    case Update => 3
    case Delete => 4
  }

  /** The verb table: which router method each operation is registered with. */
  function VerbOf(op: Op): Verb {
    match op
    case Index => GET
    case Find => GET
    case Create => PUT
    case Update => PATCH
    case Delete => DELETE
  }

  /** `RequestOptions`: the `[param, callback]` tuple configuring one operation. The
      parameter is nullable because the configuration adapter passes `null` for it. */
  datatype Endpoint = Endpoint(param: JsString, callback: Handler)

  /** `UseOption`: the `[chanel, router]` tuple of one mount. */
  datatype UseOption = UseOption(chanel: JsString, router: SubRouter)

  /** `IRouterOptions`: one optional tuple per operation and an optional mount list;
      a missing key is None. A present array is always truthy in JavaScript. */
  datatype Options = Options(
    index: Option<Endpoint>,
    find: Option<Endpoint>,
    create: Option<Endpoint>,
    update: Option<Endpoint>,
    delete: Option<Endpoint>,
    use: Option<seq<UseOption>>)

  /** Options with no key set. */
  const NoOptions: Options := Options(None, None, None, None, None, None)

  /** The options entry of one operation (`options.index`, `options.find`, ...). */
  function Lookup(o: Options, op: Op): Option<Endpoint> {
    match op
    case Index => o.index
    case Find => o.find
    case Create => o.create
    case Update => o.update
    case Delete => o.delete
  }

  /** The mounts requested, empty when `use` is missing. */
  function Uses(o: Options): seq<UseOption> {
    if o.use.Some? then o.use.value else []
  }

  /** The path an operation is registered at (`compose_endpoint`). */
  function ComposeEndpoint(join: PathJoin, endpoint: string, param: JsString): string {
    if Truthy(param) then join(endpoint, ":" + param.value) else endpoint
  }

  /** The path a sub-router is mounted at. */
  function MountPath(join: PathJoin, endpoint: string, chanel: JsString): string {
    if Truthy(chanel) then join(endpoint, chanel.value) else endpoint
  }

  /** The registration made for one configured operation. */
  function BindingFor(join: PathJoin, endpoint: string, op: Op, e: Endpoint): Reg {
    Bind(VerbOf(op), ComposeEndpoint(join, endpoint, e.param), e.callback)
  }

  /** The registration made for one mount. */
  function MountFor(join: PathJoin, endpoint: string, u: UseOption): Reg {
    Mount(MountPath(join, endpoint, u.chanel), u.router)
  }

  /** Operations listed in strictly increasing registration order (hence without repeats). */
  predicate Increasing(ops: seq<Op>) {
    forall i, j :: 0 <= i < j < |ops| ==> Rank(ops[i]) < Rank(ops[j])
  }

  /** The operations of `ops` that are configured in `o`, in the order of `ops`. */
  function Present(o: Options, ops: seq<Op>): (r: seq<Op>)
    ensures |r| <= |ops|
    ensures forall op :: op in r <==> op in ops && Lookup(o, op).Some?
    ensures Increasing(ops) ==> Increasing(r)
    decreases |ops|
  {
    if ops == [] then []
    else
      var init := Present(o, ops[..|ops| - 1]);
      var last := ops[|ops| - 1];
      assert forall op :: op in ops <==> op in ops[..|ops| - 1] || op == last by {
        assert ops == ops[..|ops| - 1] + [last];
      }
      if Lookup(o, last).Some? then
        assert Increasing(ops) ==> forall x :: x in init ==> Rank(x) < Rank(last) by {
          if Increasing(ops) {
            forall x | x in init ensures Rank(x) < Rank(last) {
              var k :| 0 <= k < |ops| - 1 && ops[k] == x;
            }
          }
        }
        init + [last]
      else init
  }

  /** Every operation appears in the registration order. */
  lemma AllOpsListed()
    ensures forall op :: op in Ops
  {
    forall op: Op ensures op in Ops {
      assert Ops[Rank(op)] == op;
    }
  }

  /** The configured operations, in registration order: exactly those with an entry. */
  function PresentOps(o: Options): (r: seq<Op>)
    ensures |r| <= |Ops|
    ensures forall op :: op in r <==> Lookup(o, op).Some?
    ensures Increasing(r)
  {
    AllOpsListed();
    Present(o, Ops)
  }

  /** The verb bindings made for the operations `ops`, one per operation, in order. */
  function Bindings(join: PathJoin, endpoint: string, o: Options, ops: seq<Op>): (regs: seq<Reg>)
    requires forall op :: op in ops ==> Lookup(o, op).Some?
    ensures |regs| == |ops|
    ensures forall i :: 0 <= i < |ops| ==>
      regs[i] == BindingFor(join, endpoint, ops[i], Lookup(o, ops[i]).value)
    decreases |ops|
  {
    if ops == [] then []
    else
      var last := ops[|ops| - 1];
      Bindings(join, endpoint, o, ops[..|ops| - 1]) + [BindingFor(join, endpoint, last, Lookup(o, last).value)]
  }

  /** The mounts made for `uses`, one per entry, in list order. */
  function Mounts(join: PathJoin, endpoint: string, uses: seq<UseOption>): (regs: seq<Reg>)
    ensures |regs| == |uses|
    ensures forall j :: 0 <= j < |uses| ==> regs[j] == MountFor(join, endpoint, uses[j])
    decreases |uses|
  {
    if uses == [] then []
    else Mounts(join, endpoint, uses[..|uses| - 1]) + [MountFor(join, endpoint, uses[|uses| - 1])]
  }

  /** Reference definition of the compiled router: a router with parameter merging whose
      trace is the bindings of the configured operations in registration order, then the
      mounts in list order. */
  function Compiled(join: PathJoin, endpoint: string, o: Options): Router {
    Router(true, Bindings(join, endpoint, o, PresentOps(o)) + Mounts(join, endpoint, Uses(o)))
  }

  /** The bindings the guarded blocks for the operations `ops` make, one block after the other. */
  function Registered(join: PathJoin, endpoint: string, o: Options, ops: seq<Op>): seq<Reg>
    decreases |ops|
  {
    if ops == [] then []
    else
      var last := ops[|ops| - 1];
      Registered(join, endpoint, o, ops[..|ops| - 1])
        + (if Lookup(o, last).Some? then [BindingFor(join, endpoint, last, Lookup(o, last).value)] else [])
  }

  /** Running the guarded blocks one after the other registers exactly the bindings of the
      configured operations, in the order the blocks run. */
  lemma {:induction false} RegisteredIsBindings(join: PathJoin, endpoint: string, o: Options, ops: seq<Op>)
    ensures Registered(join, endpoint, o, ops) == Bindings(join, endpoint, o, Present(o, ops))
    decreases |ops|
  {
    if ops != [] {
      var init := ops[..|ops| - 1];
      var last := ops[|ops| - 1];
      RegisteredIsBindings(join, endpoint, o, init);
      if Lookup(o, last).Some? {
        var p := Present(o, init);
        assert (p + [last])[..|p|] == p;
      }
    }
  }

  /** One guarded block of the factory: `entry` is the tuple of the `k`-th operation and
      `verb` its hard-coded router method, which must be the one the verb table gives. It
      extends the reference bindings of the first `k` operations by that operation's binding
      when the tuple is present, and by nothing otherwise. */
  method RegisterOp(join: PathJoin, endpoint: string, o: Options, ghost k: nat, router: Router,
                    verb: Verb, entry: Option<Endpoint>)
    returns (r: Router)
    requires k < |Ops| && verb == VerbOf(Ops[k]) && entry == Lookup(o, Ops[k])
    requires router.regs == Registered(join, endpoint, o, Ops[..k])
    ensures r.mergeParams == router.mergeParams
    ensures r.regs == Registered(join, endpoint, o, Ops[..k + 1])
  {
    r := router;
    if entry.Some? {
      var Endpoint(param, callback) := entry.value;
      r := Route(r, verb, ComposeEndpoint(join, endpoint, param), callback);
    }
    assert Ops[..k + 1][..k] == Ops[..k];
  }

  /** The five guarded blocks of the factory, in source order, each with its hard-coded
      verb, on a fresh router with parameter merging: together they register the bindings of
      the configured operations in registration order. */
  method RegisterOps(join: PathJoin, endpoint: string, options: Options) returns (router: Router)
    ensures router == Router(true, Bindings(join, endpoint, options, PresentOps(options)))
  {
    router := NewRouter(true);
    ghost var k: nat := 0;
    router := RegisterOp(join, endpoint, options, k, router, GET, options.index);
    k := k + 1;
    router := RegisterOp(join, endpoint, options, k, router, GET, options.find);
    k := k + 1;
    router := RegisterOp(join, endpoint, options, k, router, PUT, options.create);
    k := k + 1;
    router := RegisterOp(join, endpoint, options, k, router, PATCH, options.update);
    k := k + 1;
    router := RegisterOp(join, endpoint, options, k, router, DELETE, options.delete);
    k := k + 1;
    assert Ops[..k] == Ops;
    RegisteredIsBindings(join, endpoint, options, Ops);
  }

  /** `_routerMiddlewareFactory.create` (and its alias `createCRUD`) as written: the guarded
      registrations, then one `use` per mount when `use` is given. It produces exactly the
      reference trace. */
  method CreateCRUD(join: PathJoin, endpoint: string, options: Options) returns (router: Router)
    ensures router == Compiled(join, endpoint, options)
  {
    router := RegisterOps(join, endpoint, options);
    if options.use.Some? {
      router := MountAll(join, endpoint, router, options.use.value);
    } else {
      assert router.regs + Mounts(join, endpoint, Uses(options)) == router.regs;
    }
  }

  /** The `for ... of options.use` loop: one `use` per entry, in list order, each at the
      mount path of its `chanel`. */
  method MountAll(join: PathJoin, endpoint: string, router: Router, uses: seq<UseOption>)
    returns (r: Router)
    ensures r == router.(regs := router.regs + Mounts(join, endpoint, uses))
  {
    r := router;
    for k := 0 to |uses|
      invariant r == router.(regs := router.regs + Mounts(join, endpoint, uses[..k]))
    {
      var UseOption(chanel, sub) := uses[k];
      r := Use(r, MountPath(join, endpoint, chanel), sub);
      assert uses[..k + 1][..k] == uses[..k];
    }
    assert uses[..|uses|] == uses;
  }

  /** Only one list of operations is in registration order and holds a given set of
      operations: the order of the bindings depends on which operations are configured and
      on nothing else. */
  lemma {:induction false} IncreasingUnique(a: seq<Op>, b: seq<Op>)
    requires Increasing(a) && Increasing(b)
    requires forall x :: x in a <==> x in b
    ensures a == b
    decreases |a|
  {
    assert a != [] ==> a[0] in b;
    assert b != [] ==> b[0] in a;
    if a != [] {
      assert a[0] == b[0] by {
        var i :| 0 <= i < |a| && a[i] == b[0];
        var j :| 0 <= j < |b| && b[j] == a[0];
      }
      forall x ensures x in a[1..] <==> x in b[1..] {
        if x in a[1..] {
          var i :| 1 <= i < |a| && a[i] == x;
          assert x in b && x != b[0];
        }
        if x in b[1..] {
          var j :| 1 <= j < |b| && b[j] == x;
          assert x in a && x != a[0];
        }
      }
      IncreasingUnique(a[1..], b[1..]);
    }
  }

  /** The compiled router merges parent parameters, makes one verb binding per configured
      operation and one mount per `use` entry, and registers every binding before any mount. */
  lemma CompiledCounts(join: PathJoin, endpoint: string, o: Options)
    ensures Compiled(join, endpoint, o).mergeParams
    ensures CountBinds(Compiled(join, endpoint, o).regs) == |PresentOps(o)|
    ensures CountMounts(Compiled(join, endpoint, o).regs) == |Uses(o)|
    ensures BindsBeforeMounts(Compiled(join, endpoint, o).regs)
  {
    var b := Bindings(join, endpoint, o, PresentOps(o));
    var m := Mounts(join, endpoint, Uses(o));
    CountAppend(b, m);
    CountAllBinds(b);
    CountAllMounts(m);
    assert forall i :: 0 <= i < |b + m| ==> ((b + m)[i].Bind? <==> i < |b|);
  }

  /** A configured operation is bound exactly once: at its own slot, under the verb of the
      table, at `endpoint` joined with `:param` when the parameter is truthy and at `endpoint`
      itself otherwise, to the callback of its own tuple. */
  lemma OperationBinding(join: PathJoin, endpoint: string, o: Options, op: Op)
    requires Lookup(o, op).Some?
    ensures var ops := PresentOps(o);
            var e := Lookup(o, op).value;
            var path := if Truthy(e.param) then join(endpoint, ":" + e.param.value) else endpoint;
            exists i :: 0 <= i < |ops| && ops[i] == op
              && Compiled(join, endpoint, o).regs[i] == Bind(VerbOf(op), path, e.callback)
              && forall i' :: 0 <= i' < |ops| && ops[i'] == op ==> i' == i
  {
    var ops := PresentOps(o);
    var i :| 0 <= i < |ops| && ops[i] == op;
  }

  /** Every verb binding of the compiled router belongs to a configured operation: the one at
      the same slot of the registration order, with that operation's verb, path and callback. */
  lemma BindingOrigin(join: PathJoin, endpoint: string, o: Options, i: nat)
    requires i < |Compiled(join, endpoint, o).regs|
    requires Compiled(join, endpoint, o).regs[i].Bind?
    ensures i < |PresentOps(o)|
    ensures var op := PresentOps(o)[i];
            Lookup(o, op).Some?
              && Compiled(join, endpoint, o).regs[i] == BindingFor(join, endpoint, op, Lookup(o, op).value)
  {
  }

  /** Registration order: of two configured operations, the one earlier in the order index,
      find, create, update, delete is bound first. */
  lemma RegistrationOrder(join: PathJoin, endpoint: string, o: Options, a: Op, b: Op)
    requires Lookup(o, a).Some? && Lookup(o, b).Some?
    requires Rank(a) < Rank(b)
    ensures var ops := PresentOps(o);
            var regs := Compiled(join, endpoint, o).regs;
            exists i, j :: 0 <= i < j < |ops| && ops[i] == a && ops[j] == b
              && regs[i] == BindingFor(join, endpoint, a, Lookup(o, a).value)
              && regs[j] == BindingFor(join, endpoint, b, Lookup(o, b).value)
  {
    var ops := PresentOps(o);
    var i :| 0 <= i < |ops| && ops[i] == a;
    var j :| 0 <= j < |ops| && ops[j] == b;
    assert i < j;
    var regs := Compiled(join, endpoint, o).regs;
    assert regs[i] == BindingFor(join, endpoint, a, Lookup(o, a).value);
    assert regs[j] == BindingFor(join, endpoint, b, Lookup(o, b).value);
  }

  /** The mounts follow the bindings in `use` list order: the `j`-th entry mounts its
      sub-router, unchanged, at `endpoint` joined with `chanel` when `chanel` is truthy and
      at `endpoint` itself otherwise. */
  lemma MountOrder(join: PathJoin, endpoint: string, o: Options, j: nat)
    requires j < |Uses(o)|
    ensures var u := Uses(o)[j];
            var n := |PresentOps(o)|;
            n + j < |Compiled(join, endpoint, o).regs|
              && Compiled(join, endpoint, o).regs[n + j]
                 == Mount(if Truthy(u.chanel) then join(endpoint, u.chanel.value) else endpoint, u.router)
  {
  }

  /** Options without operations or mounts compile to a router with nothing registered. */
  lemma EmptyOptions(join: PathJoin, endpoint: string, o: Options)
    requires forall op :: Lookup(o, op).None?
    requires Uses(o) == []
    ensures Compiled(join, endpoint, o) == Router(true, [])
  {
  }

  /** A lone `index` tuple registers one GET binding for its callback, at `endpoint` joined
      with `:param` when the parameter is truthy and at `endpoint` itself otherwise. */
  lemma LoneIndex(join: PathJoin, endpoint: string, param: JsString, h: Handler)
    ensures Compiled(join, endpoint, NoOptions.(index := Some(Endpoint(param, h))))
         == Router(true, [Bind(GET, if Truthy(param) then join(endpoint, ":" + param.value) else endpoint, h)])
  {
    var o := NoOptions.(index := Some(Endpoint(param, h)));
    IncreasingUnique(PresentOps(o), [Index]);
  }

  /** The direct call of the smoke test, `createCRUD('./', {index: ['', fn]})`: the empty
      parameter counts as absent, so one GET binding is made at './' itself. */
  lemma SmokeTestDirectCall(join: PathJoin, h: Handler)
    ensures Compiled(join, "./", NoOptions.(index := Some(Endpoint(Some(""), h))))
         == Router(true, [Bind(GET, "./", h)])
  {
    LoneIndex(join, "./", Some(""), h);
  }

  /** With all five operations configured, exactly five bindings are registered, one per
      operation, in the order index, find, create, update, delete, under the verbs GET, GET,
      PUT, PATCH and DELETE. */
  lemma AllOperations(join: PathJoin, endpoint: string, o: Options)
    requires forall op :: Lookup(o, op).Some?
    ensures |Compiled(join, endpoint, o).regs| == 5 + |Uses(o)|
    ensures forall k :: 0 <= k < 5 ==>
      Compiled(join, endpoint, o).regs[k] == BindingFor(join, endpoint, Ops[k], Lookup(o, Ops[k]).value)
    ensures var regs := Compiled(join, endpoint, o).regs;
            [regs[0].verb, regs[1].verb, regs[2].verb, regs[3].verb, regs[4].verb] == [GET, GET, PUT, PATCH, DELETE]
  {
    AllOpsListed();
    IncreasingUnique(PresentOps(o), Ops);
    var b := Bindings(join, endpoint, o, Ops);
    assert Compiled(join, endpoint, o).regs[..5] == b;
  }
}
