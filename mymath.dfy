/** The memoising decorator and the two recursive functions it wraps.
    `memoize(fn)` is a `Memoizer` object whose `cache` is the closure's dict;
    the cache is keyed by the single argument. The decorated functions recurse
    through their decorated names, so the undecorated body (`Invoke`) calls
    back into the memoiser (`Call`). */
module MyMath {
  import opened Wrappers

  // ------------------------------------------------- the functions computed

  /** The sum of the first `n` numbers, by the recurrence of `number_sum`. */
  function NumberSum(n: nat): nat
  {
    if n == 0 then 0 else n + NumberSum(n - 1)
  }

  /** Gauss's closed form: `number_sum(n) == n(n+1)/2`. */
  lemma {:induction false} NumberSumClosedForm(n: nat)
    ensures 2 * NumberSum(n) == n * (n + 1)
  {
    if n > 0 {
      NumberSumClosedForm(n - 1);
    }
  }

  /** The Fibonacci numbers, by the recurrence of `fibonacci`. */
  function Fibonacci(n: nat): nat
  {
    if n < 2 then n else Fibonacci(n - 1) + Fibonacci(n - 2)
  }

  /** An independent, linear definition: step a pair `(a, b)` to `(b, a + b)`
      `n` times, starting from `(0, 1)`. */
  function FibPair(n: nat): (nat, nat)
  {
    if n == 0 then (0, 1) else var p := FibPair(n - 1); (p.1, p.0 + p.1)
  }

  /** The pair iteration computes consecutive Fibonacci numbers. */
  lemma {:induction false} FibPairIsFibonacci(n: nat)
    ensures FibPair(n) == (Fibonacci(n), Fibonacci(n + 1))
  {
    if n > 0 {
      FibPairIsFibonacci(n - 1);
      var p := FibPair(n - 1);
      var q := FibPair(n);
      assert q.0 == p.1 == Fibonacci(n);
      assert q.1 == Fibonacci(n + 1) by {
        assert q.1 == p.0 + p.1;
        assert Fibonacci(n + 1) == Fibonacci(n) + Fibonacci(n - 1);
      }
    }
  }

  // ------------------------------------------------------------- memoiser

  /** The two decorated functions. */
  datatype Fn = NumberSumFn | FibonacciFn

  /** What `fn(n)` returns for a non-negative argument. */
  function Eval(fn: Fn, n: nat): nat
  {
    match fn
    case NumberSumFn => NumberSum(n)
    case FibonacciFn => Fibonacci(n)
  }

  datatype MathError = AssertionError(message: string)

  /** The arguments from 0 to `n`. */
  ghost function Upto(n: nat): (r: set<int>)
    ensures forall k :: k in r <==> 0 <= k <= n
  {
    if n == 0 then {0} else Upto(n - 1) + {n}
  }

  /** The arguments whose results one call `fn(n)` leaves in an empty cache:
      every argument from 0 to `n`, except that `fibonacci(1)` stops at
      once without calling `fibonacci(0)`. */
  ghost function Reach(fn: Fn, n: nat): set<int>
  {
    if fn == FibonacciFn && n < 2 then {n as int} else Upto(n)
  }

  /** What a call reaches includes what the calls it reaches reach. */
  lemma ReachClosed(fn: Fn, n: nat, k: nat)
    requires k in Reach(fn, n)
    ensures k <= n && Reach(fn, k) <= Reach(fn, n)
  {
  }

  /** The arguments the recursive calls of `fn(n)` reach are those `fn(n)`
      reaches, except `n` itself. */
  lemma ReachStep(fn: Fn, n: nat)
    requires fn == NumberSumFn ==> n >= 1
    requires fn == FibonacciFn ==> n >= 2
    ensures fn == NumberSumFn ==> Reach(fn, n - 1) == Reach(fn, n) - {n}
    ensures fn == FibonacciFn ==> Reach(fn, n - 1) + Reach(fn, n - 2) == Reach(fn, n) - {n}
  {
    if fn == FibonacciFn && n == 2 {
      assert Upto(2) == {0, 1, 2};
    }
  }

  /** `memoize(fn)`: the decorated function together with its cache. */
  class Memoizer {
    const fn: Fn
    var cache: map<int, int>
    /** How many times the undecorated function has been entered. */
    ghost var calls: nat

    /** Every cached value is the function's value, and the cache holds
        together whatever it would take to compute each of its arguments. */
    ghost predicate Valid()
      reads this
    {
      (forall k :: k in cache ==> k >= 0)
      && (forall k :: k in cache && k >= 0 ==> cache[k] == Eval(fn, k) && Reach(fn, k) <= cache.Keys)
    }

    constructor (fn: Fn)
      ensures this.fn == fn && cache == map[] && calls == 0
      ensures Valid()
    {
      this.fn := fn;
      cache := map[];
      calls := 0;
    }

    /** The decorated call `memoizer(n)`: a cached argument is answered from
        the cache without entering `fn`; otherwise `fn(n)` is stored under
        `n` once it returns. Existing entries are never overwritten, and the
        cache gains exactly the arguments `fn(n)` reaches. */
    method Call(n: int) returns (r: Result<int, MathError>)
      requires Valid()
      modifies this
      decreases if n < 0 then 0 else n, 2
      ensures Valid()
      ensures n < 0 ==> r == Err(AssertionError("n must be >= 0")) && cache == old(cache)
      ensures n >= 0 ==> r == Ok(Eval(fn, n)) && n in cache
      ensures forall k :: k in old(cache) ==> k in cache && cache[k] == old(cache)[k]
      ensures n >= 0 ==> cache.Keys == old(cache.Keys) + Reach(fn, n)
      ensures calls >= old(calls)
      ensures n in old(cache) ==> cache == old(cache) && calls == old(calls)
    {
      assert n < 0 ==> n !in cache;
      if n !in cache {
        var v := Invoke(n);
        if v.Err? {
          r := v;
          return;
        }
        cache := cache[n := v.value];
        forall k | k in cache && k >= 0 ensures Reach(fn, k) <= cache.Keys {
          if k in Reach(fn, n) {
            ReachClosed(fn, n, k);
          }
        }
      }
      r := Ok(cache[n]);
    }

    /** The undecorated body of `fn(n)`, whose recursive calls go through
        the decorator. It computes `fn(n)` and caches what those calls
        reach, which never includes `n` itself. */
    method Invoke(n: int) returns (r: Result<int, MathError>)
      requires Valid()
      modifies this
      decreases if n < 0 then 0 else n, 1
      ensures Valid()
      ensures calls > old(calls)
      ensures n < 0 ==> r == Err(AssertionError("n must be >= 0")) && cache == old(cache)
      ensures n >= 0 ==> r == Ok(Eval(fn, n))
      ensures forall k :: k in old(cache) ==> k in cache && cache[k] == old(cache)[k]
      ensures n >= 0 ==> cache.Keys == old(cache.Keys) + (Reach(fn, n) - {n})
    {
      calls := calls + 1;
      if n < 0 {
        return Err(AssertionError("n must be >= 0"));
      }
      match fn
      case NumberSumFn => r := NumberSumBody(n);
      case FibonacciFn => r := FibonacciBody(n);
    }

    /** The body of `number_sum`, past its assertion. */
    method NumberSumBody(n: nat) returns (r: Result<int, MathError>)
      requires Valid() && fn == NumberSumFn
      modifies this
      decreases n, 0
      ensures Valid()
      ensures calls >= old(calls)
      ensures r == Ok(NumberSum(n))
      ensures forall k :: k in old(cache) ==> k in cache && cache[k] == old(cache)[k]
      ensures cache.Keys == old(cache.Keys) + (Reach(fn, n) - {n})
    {
      if n == 0 {
        r := Ok(0);
      } else {
        var p := Call(n - 1);
        ReachStep(fn, n);
        r := Ok(n + p.value);
      }
    }

    /** The body of `fibonacci`, past its assertion. */
    method FibonacciBody(n: nat) returns (r: Result<int, MathError>)
      requires Valid() && fn == FibonacciFn
      modifies this
      decreases n, 0
      ensures Valid()
      ensures calls >= old(calls)
      ensures r == Ok(Fibonacci(n))
      ensures forall k :: k in old(cache) ==> k in cache && cache[k] == old(cache)[k]
      ensures cache.Keys == old(cache.Keys) + (Reach(fn, n) - {n})
    {
      if n == 0 || n == 1 {
        r := Ok(n);
      } else {
        var a := Call(n - 1);
        var b := Call(n - 2);
        ReachStep(fn, n);
        r := Ok(a.value + b.value);
      }
    }
  }

  /** A first `number_sum(n)` leaves exactly the arguments 0 to `n` cached,
      each with the sum of the numbers up to it. */
  method ColdNumberSum(n: nat) returns (m: Memoizer, r: Result<int, MathError>)
    ensures m.fn == NumberSumFn && r == Ok(NumberSum(n))
    ensures m.cache.Keys == Upto(n)
    ensures forall k :: 0 <= k <= n ==> 2 * m.cache[k] == k * (k + 1)
  {
    m := new Memoizer(NumberSumFn);
    r := m.Call(n);
    forall k | 0 <= k <= n ensures 2 * m.cache[k] == k * (k + 1) {
      assert k in Upto(n);
      NumberSumClosedForm(k);
    }
  }
}
