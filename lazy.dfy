/** The lazily computed attribute. `resource` is a descriptor with only a
    `__get__`, so once its value has been stored on the instance under the
    same name, attribute lookup finds the stored value first and the
    computation never runs again. `resourceAttr` is that entry of the
    instance's attribute dictionary, absent until the first access. */
module Lazy {
  import opened Wrappers

  /** `tuple(range(n))`. */
  function Range(n: nat): (r: seq<int>)
    ensures |r| == n
    ensures forall i :: 0 <= i < n ==> r[i] == i
  {
    if n == 0 then [] else Range(n - 1) + [n - 1]
  }

  class Test {
    var x: string
    var y: string
    /** `self._resource`. */
    var resourceField: Option<seq<int>>
    /** The instance's own `resource` entry, written by the descriptor. */
    var resourceAttr: Option<seq<int>>
    /** How many times the decorated method has run. */
    ghost var runs: nat

    /** The instance's `resource` entry, once there, is what the descriptor stored. */
    ghost predicate Valid()
      reads this
    {
      resourceAttr.Some? ==> resourceAttr == Some(Range(5)) && resourceField == resourceAttr
    }

    constructor ()
      ensures Valid()
      ensures x == "foo" && y == "bar"
      ensures resourceField == None && resourceAttr == None && runs == 0
    {
      x := "foo";
      y := "bar";
      resourceField := None;
      resourceAttr := None;
      runs := 0;
    }

    /** The decorated method `resource(self)`: the expensive computation,
        which also records its result in `_resource`. */
    method ComputeResource() returns (value: seq<int>)
      modifies this
      ensures value == Range(5)
      ensures resourceField == Some(value) && runs == old(runs) + 1
      ensures x == old(x) && y == old(y) && resourceAttr == old(resourceAttr)
    {
      runs := runs + 1;
      resourceField := Some(Range(5));
      value := Range(5);
    }

    /** The attribute access `t.resource`: the instance's own entry if there
        is one, otherwise the descriptor. The method runs on the first access
        only, and every access gives the same value. */
    method Resource() returns (value: seq<int>)
      requires Valid()
      modifies this
      ensures Valid()
      ensures value == Range(5) && resourceAttr == Some(value) && resourceField == Some(value)
      ensures old(resourceAttr).Some? ==> value == old(resourceAttr).value && runs == old(runs)
      ensures old(resourceAttr).Some? ==> resourceField == old(resourceField)
      ensures old(resourceAttr).None? ==> runs == old(runs) + 1
      ensures x == old(x) && y == old(y)
    {
      if resourceAttr.Some? {
        value := resourceAttr.value;
      } else {
        var got := LazyGet(this);
        value := got.value;
      }
    }
  }

  /** `LazyProperty.__get__(obj, cls)`: nothing without an instance;
      otherwise the method runs and its value is stored on the instance
      under the attribute's name. An instance of `Test` is always true in a
      boolean test, so only a missing instance takes the first branch. */
  method LazyGet(obj: Test?) returns (r: Option<seq<int>>)
    modifies obj
    ensures obj == null ==> r == None
    ensures obj != null ==> r == Some(Range(5)) && obj.resourceAttr == r && obj.resourceField == r && obj.Valid()
    ensures obj != null ==> obj.runs == old(obj.runs) + 1 && obj.x == old(obj.x) && obj.y == old(obj.y)
  {
    if obj == null {
      return None;
    }
    var value := obj.ComputeResource();
    obj.resourceAttr := Some(value);
    r := Some(value);
  }

  /** The demonstration: `x` and `y` are there from the start, and two
      accesses to `resource` give `(0, 1, 2, 3, 4)` twice for a single run
      of the method. */
  method Demo() returns (t: Test, first: seq<int>, second: seq<int>)
    ensures t.x == "foo" && t.y == "bar"
    ensures first == second == [0, 1, 2, 3, 4]
    ensures t.runs == 1
  {
    t := new Test();
    first := t.Resource();
    second := t.Resource();
    assert Range(5) == [0, 1, 2, 3, 4];
  }
}
