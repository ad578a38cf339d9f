/** The flyweight car pool: asking for a car of a given type returns the one
    shared `Car` of that type, creating and pooling it on the first request.
    The pool, a class-level dict in the program, is an explicit object here. */
module Flyweight {
  import opened Text

  /** `CarType = Enum('CarType', 'subcompact compact suv')`. */
  datatype CarType = Subcompact | Compact | Suv

  /** `str(t)` of an enum member: the enum's name, a dot, the member's name. */
  function TypeName(t: CarType): (r: string)
    ensures |r| > 8 && r[..8] == "CarType."
  {
    match t
    case Subcompact => "CarType.subcompact"
    case Compact => "CarType.compact"
    case Suv => "CarType.suv"
  }

  /** There are three car types, so any set of them has at most three members. */
  lemma AtMostThreeTypes(s: set<CarType>)
    ensures |s| <= 3
  {
    var all := {Subcompact, Compact, Suv};
    forall t | t in s ensures t in all {
      match t
      case Subcompact =>
      case Compact =>
      case Suv =>
    }
    assert s <= all;
    SubsetCardinality(s, all);
  }

  lemma AllTypesCount()
    ensures |{Subcompact, Compact, Suv}| == 3
  {
    assert {Subcompact, Compact, Suv} == {Subcompact, Compact} + {Suv};
    assert |{Subcompact, Compact}| == 2;
  }

  lemma {:induction false} SubsetCardinality<T>(s: set<T>, u: set<T>)
    requires s <= u
    ensures |s| <= |u|
    decreases |u|
  {
    if s != {} {
      var x :| x in s;
      SubsetCardinality(s - {x}, u - {x});
    }
  }

  /** A shared car. Its only slot is `carType`: the colour and position
      passed to `Render` are never stored. */
  class Car {
    var carType: CarType

    constructor (carType: CarType)
      ensures this.carType == carType
    {
      this.carType := carType;
    }

    /** The message `render` prints; it only reads `carType`, and it begins
        by naming that type. */
    function Render(color: string, x: int, y: int): (msg: string)
      reads this
      ensures |RenderPrefix(carType)| <= |msg| && msg[..|RenderPrefix(carType)|] == RenderPrefix(carType)
    {
      RenderMessage(carType, color, x, y)
    }
  }

  /** The part of the message that names the type. */
  function RenderPrefix(t: CarType): string
  {
    "render a car of type " + TypeName(t)
  }

  /** The message `render` prints: it begins by naming the car type, and
      colour and position follow. */
  function RenderMessage(t: CarType, color: string, x: int, y: int): (msg: string)
    ensures |RenderPrefix(t)| <= |msg| && msg[..|RenderPrefix(t)|] == RenderPrefix(t)
  {
    var p := RenderPrefix(t);
    var m := p + RenderSuffix(color, x, y);
    assert m[..|p|] == p;
    m
  }

  function RenderSuffix(color: string, x: int, y: int): string
  {
    " and color " + color + " at (" + IntToString(x) + ", " + IntToString(y) + ")"
  }

  /** No type's naming part begins another type's, so the start of a message
      determines the type. */
  lemma RenderPrefixFree(t1: CarType, t2: CarType)
    requires t1 != t2
    ensures !(|RenderPrefix(t1)| <= |RenderPrefix(t2)| && RenderPrefix(t2)[..|RenderPrefix(t1)|] == RenderPrefix(t1))
  {
    var p1 := RenderPrefix(t1);
    var p2 := RenderPrefix(t2);
    assert |p1| > 31 && p1[29] == TypeName(t1)[8] && p1[31] == TypeName(t1)[10];
    assert |p2| > 31 && p2[29] == TypeName(t2)[8] && p2[31] == TypeName(t2)[10];
    if |p1| <= |p2| {
      assert p2[..|p1|][29] == p2[29] && p2[..|p1|][31] == p2[31];
    }
  }

  /** The rendered message names the car type: cars of different types never
      render the same message, whatever colour and position they are given. */
  lemma RenderShowsType(t1: CarType, t2: CarType, c1: string, x1: int, y1: int, c2: string, x2: int, y2: int)
    requires t1 != t2
    ensures RenderMessage(t1, c1, x1, y1) != RenderMessage(t2, c2, x2, y2)
  {
    RenderPrefixFree(t1, t2);
    RenderPrefixFree(t2, t1);
    DistinctStarts(RenderMessage(t1, c1, x1, y1), RenderMessage(t2, c2, x2, y2), RenderPrefix(t1), RenderPrefix(t2));
  }

  /** Two strings that begin with prefixes neither of which begins the other
      are different. */
  lemma DistinctStarts(m1: string, m2: string, p1: string, p2: string)
    requires |p1| <= |m1| && m1[..|p1|] == p1
    requires |p2| <= |m2| && m2[..|p2|] == p2
    requires !(|p1| <= |p2| && p2[..|p1|] == p1)
    requires !(|p2| <= |p1| && p1[..|p2|] == p2)
    ensures m1 != m2
  {
    if |p1| <= |p2| {
      assert m2[..|p2|][..|p1|] == m2[..|p1|];
    } else {
      assert m1[..|p1|][..|p2|] == m1[..|p2|];
    }
  }

  /** The pool of shared cars, one per requested type. */
  class CarPool {
    var pool: map<CarType, Car>

    /** Every pooled car has the type it is stored under. */
    ghost predicate Valid()
      reads this, pool.Values
    {
      forall t :: t in pool ==> pool[t].carType == t
    }

    constructor ()
      ensures Valid() && pool == map[]
    {
      pool := map[];
    }

    /** `Car(t)`: the pooled car for `t` if there is one, otherwise a new car
        of type `t`, which is pooled. Existing entries are never replaced. */
    method Get(t: CarType) returns (car: Car)
      requires Valid()
      modifies this
      ensures Valid()
      ensures car.carType == t
      ensures t in old(pool) ==> car == old(pool)[t] && pool == old(pool)
      ensures t !in old(pool) ==> fresh(car) && pool == old(pool)[t := car]
      ensures pool.Keys == old(pool.Keys) + {t} && pool[t] == car
    {
      if t in pool {
        car := pool[t];
      } else {
        car := new Car(t);
        pool := pool[t := car];
      }
    }

    /** `len(Car.pool)`: the number of cars actually created. */
    function Size(): (n: nat)
      reads this
      ensures n == |pool.Keys| && n <= 3
    {
      AtMostThreeTypes(pool.Keys);
      |pool|
    }

    /** Two pooled cars are the same object exactly when their types are equal. */
    lemma SharedIdentity(t1: CarType, t2: CarType)
      requires Valid() && t1 in pool && t2 in pool
      ensures pool[t1] == pool[t2] <==> t1 == t2
    {
    }
  }

  /** A run of requests `Car(ts[0])`, `Car(ts[1])`, ...: the pool ends up
      holding exactly the types requested so far, earlier entries are kept,
      and each request gets the pooled car of its type, so (by `SharedIdentity`)
      two requests give the same object exactly when their types agree. */
  method GetAll(cars: CarPool, ts: seq<CarType>) returns (got: seq<Car>)
    requires cars.Valid()
    modifies cars
    ensures cars.Valid()
    ensures forall t :: t in cars.pool <==> t in old(cars.pool) || t in ts
    ensures forall u :: u in old(cars.pool) ==> cars.pool[u] == old(cars.pool)[u]
    ensures |got| == |ts|
    ensures forall i :: 0 <= i < |ts| ==> got[i].carType == ts[i] && got[i] == cars.pool[ts[i]]
  {
    got := [];
    for i := 0 to |ts|
      invariant cars.Valid()
      invariant forall t :: t in cars.pool <==> t in old(cars.pool) || t in ts[..i]
      invariant forall u :: u in old(cars.pool) ==> cars.pool[u] == old(cars.pool)[u]
      invariant |got| == i
      invariant forall j :: 0 <= j < i ==> got[j] == cars.pool[ts[j]]
    {
      assert ts[..i + 1] == ts[..i] + [ts[i]];
      var car := cars.Get(ts[i]);
      got := got + [car];
    }
    assert ts[..|ts|] == ts;
  }

  /** `n` copies of `m`. */
  function Repeat(m: string, n: nat): (r: seq<string>)
    ensures |r| == n
    ensures forall i :: 0 <= i < n ==> r[i] == m
  {
    if n == 0 then [] else [m] + Repeat(m, n - 1)
  }

  /** One of the demonstration's loops: `count` cars of type `t` are requested
      from the pool and rendered; the messages are collected in order. */
  method RenderRun(cars: CarPool, t: CarType, count: nat, color: string, x: int, y: int)
    returns (messages: seq<string>)
    requires cars.Valid()
    modifies cars
    ensures cars.Valid()
    ensures cars.pool.Keys == old(cars.pool.Keys) + (if count == 0 then {} else {t})
    ensures forall u :: u in old(cars.pool) ==> cars.pool[u] == old(cars.pool)[u]
    ensures messages == Repeat(RenderMessage(t, color, x, y), count)
  {
    messages := [];
    for i := 0 to count
      invariant cars.Valid()
      invariant cars.pool.Keys == old(cars.pool.Keys) + (if i == 0 then {} else {t})
      invariant forall u :: u in old(cars.pool) ==> cars.pool[u] == old(cars.pool)[u]
      invariant |messages| == i
      invariant forall j :: 0 <= j < i ==> messages[j] == RenderMessage(t, color, x, y)
    {
      var car := cars.Get(t);
      messages := messages + [car.Render(color, x, y)];
    }
  }

  /** The demonstration: ten subcompact, three compact and five suv cars are
      rendered through the pool, which ends with three cars; two later
      subcompact requests give the same object and an suv request another.
      The random colours and positions are the parameters. */
  method Demo(color: string, x: int, y: int)
    returns (rendered: nat, created: nat, sameSubcompacts: bool, subcompactIsSuv: bool, messages: seq<string>)
    ensures messages == Repeat(RenderMessage(Subcompact, color, x, y), 10)
      + Repeat(RenderMessage(Compact, color, x, y), 3) + Repeat(RenderMessage(Suv, color, x, y), 5)
    ensures rendered == 18 && created == 3
    ensures sameSubcompacts && !subcompactIsSuv
  {
    var cars := new CarPool();
    var m1 := RenderRun(cars, Subcompact, 10, color, x, y);
    var m2 := RenderRun(cars, Compact, 3, color, x, y);
    var m3 := RenderRun(cars, Suv, 5, color, x, y);
    messages := m1 + m2 + m3;
    rendered := |messages|;
    created := cars.Size();
    assert cars.pool.Keys == {Subcompact, Compact, Suv};
    AllTypesCount();
    var c4 := cars.Get(Subcompact);
    var c5 := cars.Get(Subcompact);
    var c6 := cars.Get(Suv);
    sameSubcompacts := c4 == c5;
    subcompactIsSuv := c5 == c6;
  }
}
