/** The per-function scope: parameter name to its ordered list of known types. */
module Scope {
  import opened Wrappers
  import opened Syntax
  import opened Errors

  /** The `parameters` dictionary: each record is reduced to its `knownTypes` list. */
  type Records<T> = map<string, seq<T>>

  /**
   * The records that registering `names` in order writes: each name gets an empty
   * list, and a repeated name is simply written again.
   */
  function EmptyRecords<T>(names: seq<string>): (m: Records<T>)
    ensures forall n :: n in m <==> n in names
    ensures forall n :: n in m ==> m[n] == []
  {
    if names == [] then map[]
    else EmptyRecords(names[..|names| - 1])[names[|names| - 1] := []]
  }

  /**
   * What `constrainParameter(name, t)` does to the records: append `t` at the end
   * of `name`'s list, or fail when `name` is not registered.
   */
  function Constrain<T>(m: Records<T>, name: string, t: T): (r: Result<Records<T>, Failure>)
    ensures r.Err? <==> name !in m
    ensures r.Err? ==> r.error == UnknownParameter(name)
    ensures r.Ok? ==> r.value.Keys == m.Keys
    ensures r.Ok? ==> |r.value[name]| == |m[name]| + 1
                      && r.value[name][..|m[name]|] == m[name]
                      && r.value[name][|m[name]|] == t
    ensures r.Ok? ==> forall other :: other in m && other != name ==> r.value[other] == m[other]
  {
    if name in m then Ok(m[name := m[name] + [t]]) else Err(UnknownParameter(name))
  }

  /** Registering one more name extends the records by that name's empty list. */
  lemma RegisterNext<T>(m: Records<T>, names: seq<string>, i: nat)
    requires i < |names|
    ensures (m + EmptyRecords(names[..i]))[names[i] := []] == m + EmptyRecords(names[..i + 1])
  {
    assert names[..i + 1][..i] == names[..i];
  }

  class FunctionScope<T> {
    const funcName: string
    const funcNode: Node
    var parameters: Records<T>

    constructor (funcName: string, funcNode: Node)
      ensures this.funcName == funcName && this.funcNode == funcNode
      ensures parameters == map[]
    {
      this.funcName := funcName;
      this.funcNode := funcNode;
      parameters := map[];
    }

    /** Registers every declared parameter of the function with an empty record. */
    method MarkParameters()
      requires funcNode.FunctionDeclaration?
      modifies this
      ensures parameters == old(parameters) + EmptyRecords(funcNode.parameters)
    {
      var names := funcNode.parameters;
      var i := 0;
      while i < |names|
        invariant 0 <= i <= |names|
        invariant parameters == old(parameters) + EmptyRecords(names[..i])
      {
        RegisterNext(old(parameters), names, i);
        parameters := parameters[names[i] := []];
        i := i + 1;
      }
      assert names[..i] == names;
    }

    /** The record of `name`, or None when `name` is not a parameter of this function. */
    function GetParameter(name: string): (r: Option<seq<T>>)
      reads this
      ensures r.Some? <==> name in parameters
      ensures r.Some? ==> r.value == parameters[name]
    {
      if name in parameters then Some(parameters[name]) else None
    }

    /** Appends `newType` to the known types of the parameter `name`. */
    method ConstrainParameter(name: string, newType: T) returns (o: Outcome<Failure>)
      modifies this
      ensures match Constrain(old(parameters), name, newType)
              case Ok(m) => o == Pass && parameters == m
              case Err(e) => o == Fail(e) && parameters == old(parameters)
    {
      if name !in parameters {
        return Fail(UnknownParameter(name));
      }
      parameters := parameters[name := parameters[name] + [newType]];
      o := Pass;
    }
  }
}
