/** The part of the Express router API the compiler drives, modelled as the trace of
    registrations made on one router. Request matching is not modelled. */
module Express {

  /** The HTTP verbs the compiler registers handlers under. */
  datatype Verb = GET | PUT | PATCH | DELETE

  /** An opaque request callback. */
  datatype Handler = Handler(id: nat)

  /** An opaque router handed to `use`. */
  datatype SubRouter = SubRouter(id: nat)

  /** One call made on the router: a verb binding (`router.get(path, handler)` and
      friends) or a mount (`router.use(path, sub)`). */
  datatype Reg =
    | Bind(verb: Verb, path: string, handler: Handler)
    | Mount(path: string, sub: SubRouter)

  /** A router: the options it was created with and its registrations in call order. */
  datatype Router = Router(mergeParams: bool, regs: seq<Reg>)

  /** Node's `path.join`, left uninterpreted: every property proved here holds for any join. */
  type PathJoin = (string, string) -> string

  /** `express.Router({mergeParams})`: a fresh router with nothing registered. */
  function NewRouter(mergeParams: bool): Router {
    Router(mergeParams, [])
  }

  /** `router.get` / `put` / `patch` / `delete`: appends one verb binding. */
  function Route(r: Router, verb: Verb, path: string, h: Handler): Router {
    r.(regs := r.regs + [Bind(verb, path, h)])
  }

  /** `router.use(path, sub)`: appends one mount. */
  function Use(r: Router, path: string, sub: SubRouter): Router {
    r.(regs := r.regs + [Mount(path, sub)])
  }

  /** Number of verb bindings in a trace. */
  function CountBinds(regs: seq<Reg>): nat {
    if regs == [] then 0 else (if regs[0].Bind? then 1 else 0) + CountBinds(regs[1..])
  }

  /** Number of mounts in a trace. */
  function CountMounts(regs: seq<Reg>): nat {
    if regs == [] then 0 else (if regs[0].Mount? then 1 else 0) + CountMounts(regs[1..])
  }

  /** No mount is registered before a verb binding. */
  predicate BindsBeforeMounts(regs: seq<Reg>) {
    forall i, j :: 0 <= i < j < |regs| ==> !(regs[i].Mount? && regs[j].Bind?)
  }

  /** Counting distributes over concatenation of traces. */
  lemma {:induction false} CountAppend(a: seq<Reg>, b: seq<Reg>)
    ensures CountBinds(a + b) == CountBinds(a) + CountBinds(b)
    ensures CountMounts(a + b) == CountMounts(a) + CountMounts(b)
    decreases |a|
  {
    if a == [] {
      assert a + b == b;
    } else {
      assert (a + b)[1..] == a[1..] + b;
      CountAppend(a[1..], b);
    }
  }

  /** A trace made only of verb bindings counts all of its entries as bindings. */
  lemma {:induction false} CountAllBinds(regs: seq<Reg>)
    requires forall i :: 0 <= i < |regs| ==> regs[i].Bind?
    ensures CountBinds(regs) == |regs|
    ensures CountMounts(regs) == 0
    decreases |regs|
  {
    if regs != [] {
      CountAllBinds(regs[1..]);
    }
  }

  /** A trace made only of mounts counts all of its entries as mounts. */
  lemma {:induction false} CountAllMounts(regs: seq<Reg>)
    requires forall i :: 0 <= i < |regs| ==> regs[i].Mount?
    ensures CountMounts(regs) == |regs|
    ensures CountBinds(regs) == 0
    decreases |regs|
  {
    if regs != [] {
      CountAllMounts(regs[1..]);
    }
  }
}
