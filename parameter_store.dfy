/**
 * The SSM parameter store, seen only as a region-scoped map from parameter
 * names to values: the hand-off point between stacks deployed to different
 * regions.
 */
module ParameterStore {

  datatype Option<T> = None | Some(value: T)

  /** Where a parameter lives: its region and its name. */
  datatype Address = Address(region: string, name: string)

  /** An `ssm.StringParameter` construct: its construct id, its name and the value it writes. */
  datatype StringParameter<V> = StringParameter(id: string, name: string, value: V)

  /** `getParameter`; `None` is the ParameterNotFound failure. */
  function Get<V>(store: map<Address, V>, region: string, name: string): Option<V>
  {
    var a := Address(region, name);
    if a in store then Some(store[a]) else None
  }

  /** Writing a parameter overwrites its value and leaves every other address alone. */
  function Put<V>(store: map<Address, V>, region: string, name: string, value: V): (updated: map<Address, V>)
    ensures Get(updated, region, name) == Some(value)
    ensures forall r, n :: Address(r, n) != Address(region, name) ==> Get(updated, r, n) == Get(store, r, n)
  {
    store[Address(region, name) := value]
  }

  /** Deploying a stack's parameters into `region`, in declaration order. */
  function PutAll<V>(store: map<Address, V>, region: string, params: seq<StringParameter<V>>): map<Address, V>
    decreases |params|
  {
    if params == [] then store
    else PutAll(Put(store, region, params[0].name, params[0].value), region, params[1..])
  }

  /** The value of the last parameter in `params` named `name`, if any. */
  function LastWritten<V>(params: seq<StringParameter<V>>, name: string): Option<V>
    decreases |params|
  {
    if params == [] then None
    else if params[|params| - 1].name == name then Some(params[|params| - 1].value)
    else LastWritten(params[..|params| - 1], name)
  }

  lemma {:induction false} LastWrittenCons<V>(p: StringParameter<V>, params: seq<StringParameter<V>>, name: string)
    ensures LastWritten([p] + params, name) ==
      if LastWritten(params, name).Some? then LastWritten(params, name)
      else if p.name == name then Some(p.value)
      else None
    decreases |params|
  {
    if params != [] {
      var all := [p] + params;
      assert all[..|all| - 1] == [p] + params[..|params| - 1];
      LastWrittenCons(p, params[..|params| - 1], name);
    }
  }

  /**
   * After deploying `params` into `region`, reading an address of that
   * region yields the last value written to it, and every other read is
   * what it was before.
   */
  lemma {:induction false} GetAfterPutAll<V>(store: map<Address, V>, region: string, params: seq<StringParameter<V>>, r: string, n: string)
    ensures Get(PutAll(store, region, params), r, n) ==
      if r == region && LastWritten(params, n).Some? then LastWritten(params, n)
      else Get(store, r, n)
    decreases |params|
  {
    if params != [] {
      var p := params[0];
      GetAfterPutAll(Put(store, region, p.name, p.value), region, params[1..], r, n);
      assert params == [p] + params[1..];
      LastWrittenCons(p, params[1..], n);
    }
  }
}
