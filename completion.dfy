/**
 * The completion bridge's values: what `readline.readline` was given as a
 * completion source, the generator `lua_readline` stores for it, the iterator
 * a generator returns for a prefix, and what one call of that iterator
 * yields. The registry slots that hold them, and the C functions that move
 * them, are in module ReadlineBinding; here are the semantics those
 * functions are proved against, and what a whole generation yields.
 */
module Completion {
  import opened CStrings
  import opened Wrappers

  /** What one call of an iterator gives back: a candidate, nil, or a raised Lua error. */
  datatype StepResult = Yield(candidate: string) | Nil | Raise

  /**
   * A host function used as a generator, abstracted: called with a prefix it
   * returns an iterator whose i-th call (from 0) yields `generate(prefix)(i)`.
   */
  type HostFunction = string -> nat -> StepResult

  /** The second argument of `readline.readline`, by Lua type. */
  datatype LuaValue =
    | NoValue                       // argument omitted
    | LuaNil
    | Boolean(b: bool)
    | Number(n: int)
    | Str(s: string)
    | Table(entries: seq<string>)   // t[1], t[2], ... up to the first nil
    | Function(generate: HostFunction)

  /** The value stored under the generator registry key. */
  datatype Generator =
    | HostGen(generate: HostFunction)   // the Lua function itself
    | TableGen(table: seq<string>)      // the lua_ipairsiterator closure over the table
    | NilGen                            // lua_niliterator

  /** The value stored under the iterator registry key. */
  datatype Iterator =
    | ReturnNil                                              // lua_returnnil
    | Ipairs(table: seq<string>, key: Option<nat>, prefix: string)  // lua_iterstep; key is upvalue 3
    | Host(next: nat -> StepResult, calls: nat)              // an iterator the Lua generator returned

  /** Every entry of a table is a NUL-free string. */
  predicate AllNulFree(t: seq<string>) {
    forall i :: 0 <= i < |t| ==> NulFree(t[i])
  }

  /** The generator `lua_readline` stores for its second argument. */
  function Dispatch(arg: LuaValue): Generator {
    match arg
    case Function(g) => HostGen(g)
    case Table(t) => TableGen(t)
    case _ => NilGen
  }

  /**
   * Calling a generator with the prefix text: a host function returns its
   * iterator; the ipairs generator returns a closure over ipairs' results
   * (control value 0) and the prefix; the nil generator returns lua_returnnil.
   */
  function Start(g: Generator, text: string): Iterator {
    match g
    case HostGen(generate) => Host(generate(text), 0)
    case TableGen(t) => Ipairs(t, Some(0), text)
    case NilGen => ReturnNil
  }

  /**
   * The loop of lua_iterstep from control value k: each ipairs call moves to
   * entry k+1 and writes k+1 back as the control value; nil (past the last
   * entry) ends the scan with a nil control value; an entry that passes the
   * prefix test is returned, any other is skipped.
   */
  function Scan(t: seq<string>, k: nat, p: string): (r: (StepResult, Option<nat>))
    decreases |t| - k
    ensures r.1.Some? ==> k < r.1.value <= |t| && PrefixTest(p, t[r.1.value - 1])
    ensures r.1.Some? ==> r.0 == Yield(t[r.1.value - 1])
    ensures r.1.Some? ==> forall i :: k <= i < r.1.value - 1 ==> !PrefixTest(p, t[i])
    ensures r.1.None? ==> r.0 == Nil && forall i :: k <= i < |t| ==> !PrefixTest(p, t[i])
  {
    if k >= |t| then (Nil, None)
    else if PrefixTest(p, t[k]) then (Yield(t[k]), Some(k + 1))
    else Scan(t, k + 1, p)
  }

  /**
   * One call of an iterator: its result and the iterator afterwards. ipairs
   * raises when its control value is nil, so an exhausted ipairs cursor raises
   * if it is called again.
   */
  function Step(it: Iterator): (StepResult, Iterator) {
    match it
    case ReturnNil => (Nil, ReturnNil)
    case Ipairs(t, key, p) =>
      if key.None? then (Raise, it)
      else var scan := Scan(t, key.value, p); (scan.0, Ipairs(t, scan.1, p))
    case Host(next, calls) => (next(calls), Host(next, calls + 1))
  }

  /**
   * What one call keeps and changes: lua_returnnil stays nil; the ipairs
   * closure keeps its table and prefix (upvalues 1, 2 and 4), raises exactly
   * when its control value is nil, and otherwise moves the control value
   * forward, yielding the entry just before it, which passes the prefix test,
   * or ends with nil; a host iterator passes its next result through.
   */
  lemma StepShape(it: Iterator)
    ensures it.ReturnNil? ==> Step(it).0 == Nil && Step(it).1 == it
    ensures it.Ipairs? ==> Step(it).1.Ipairs? && Step(it).1.table == it.table && Step(it).1.prefix == it.prefix
    ensures it.Ipairs? ==> (Step(it).0 == Raise <==> it.key.None?)
    ensures it.Ipairs? && it.key.Some? && Step(it).1.key.Some? ==>
      var j := Step(it).1.key.value;
      it.key.value < j <= |it.table| && Step(it).0 == Yield(it.table[j - 1]) && PrefixTest(it.prefix, it.table[j - 1])
    ensures it.Ipairs? && it.key.Some? && Step(it).1.key.None? ==> Step(it).0 == Nil
    ensures it.Host? ==> Step(it).0 == it.next(it.calls) && Step(it).1 == Host(it.next, it.calls + 1)
  {
  }

  /** n successive calls of an iterator: their results in order and the iterator afterwards. */
  function Run(it: Iterator, n: nat): (r: (seq<StepResult>, Iterator))
    ensures |r.0| == n
    decreases n
  {
    if n == 0 then ([], it)
    else
      var step := Step(it);
      var rest := Run(step.1, n - 1);
      ([step.0] + rest.0, rest.1)
  }

  /** Reference definition: the entries of t that start with p, in table order. */
  function Filter(t: seq<string>, p: string): seq<string> {
    if t == [] then []
    else (if p <= t[0] then [t[0]] else []) + Filter(t[1..], p)
  }

  /** The results of yielding each of xs in turn. */
  function Yields(xs: seq<string>): (r: seq<StepResult>)
    ensures |r| == |xs|
    ensures forall i :: 0 <= i < |xs| ==> r[i] == Yield(xs[i])
  {
    if xs == [] then [] else [Yield(xs[0])] + Yields(xs[1..])
  }

  /** a is obtained from b by deleting entries: same order, each entry of b used at most once. */
  predicate IsSubsequence<T(==)>(a: seq<T>, b: seq<T>)
    decreases |b|
  {
    a == [] || (b != [] && ((a[0] == b[0] && IsSubsequence(a[1..], b[1..])) || IsSubsequence(a, b[1..])))
  }

  // ----- the filter -----

  /** Filter keeps exactly the matching entries, as many times as the table holds them. */
  lemma {:induction false} FilterCounts(t: seq<string>, p: string, x: string)
    ensures multiset(Filter(t, p))[x] == if p <= x then multiset(t)[x] else 0
  {
    if t != [] {
      FilterCounts(t[1..], p, x);
      assert t == [t[0]] + t[1..];
      assert multiset(t) == multiset{t[0]} + multiset(t[1..]);
    }
  }

  /** Filter keeps table order. */
  lemma {:induction false} FilterIsSubsequence(t: seq<string>, p: string)
    ensures IsSubsequence(Filter(t, p), t)
  {
    if t != [] {
      FilterIsSubsequence(t[1..], p);
      var f := Filter(t, p);
      if p <= t[0] {
        assert f == [t[0]] + Filter(t[1..], p);
        assert f[1..] == Filter(t[1..], p);
      } else {
        assert f == Filter(t[1..], p);
      }
    }
  }

  /** The empty prefix lets every entry through. */
  lemma {:induction false} FilterEmptyPrefix(t: seq<string>)
    ensures Filter(t, "") == t
  {
    if t != [] {
      FilterEmptyPrefix(t[1..]);
      assert [t[0]] + t[1..] == t;
    }
  }

  lemma FilterUnfold(t: seq<string>, k: nat, p: string)
    requires k < |t|
    ensures Filter(t[k..], p) == (if p <= t[k] then [t[k]] else []) + Filter(t[k + 1..], p)
  {
    assert t[k..][0] == t[k];
    assert t[k..][1..] == t[k + 1..];
  }

  /**
   * One step of the ipairs cursor from control value k yields the first
   * remaining match of the reference filter, and the cursor it leaves behind
   * has exactly the other remaining matches ahead of it.
   */
  lemma {:induction false} ScanAgreesWithFilter(t: seq<string>, k: nat, p: string)
    requires k <= |t| && NulFree(p) && AllNulFree(t)
    ensures var (r, key) := Scan(t, k, p);
      var f := Filter(t[k..], p);
      if f == [] then r == Nil && key == None
      else r == Yield(f[0]) && key.Some? && k < key.value <= |t| && f[1..] == Filter(t[key.value..], p)
    decreases |t| - k
  {
    if k < |t| {
      FilterUnfold(t, k, p);
      PrefixTestIsPrefix(p, t[k]);
      if !(p <= t[k]) {
        ScanAgreesWithFilter(t, k + 1, p);
      }
    } else {
      assert t[k..] == [];
    }
  }

  // ----- whole generations -----

  lemma {:induction false} TableGenerationFrom(t: seq<string>, k: nat, p: string)
    requires k <= |t| && NulFree(p) && AllNulFree(t)
    ensures Run(Ipairs(t, Some(k), p), |Filter(t[k..], p)| + 1).0 == Yields(Filter(t[k..], p)) + [Nil]
    ensures Run(Ipairs(t, Some(k), p), |Filter(t[k..], p)| + 1).1 == Ipairs(t, None, p)
    decreases |t| - k
  {
    ScanAgreesWithFilter(t, k, p);
    var f := Filter(t[k..], p);
    var scan := Scan(t, k, p);
    var next := Ipairs(t, scan.1, p);
    assert Step(Ipairs(t, Some(k), p)) == (scan.0, next);
    if f == [] {
      assert Run(Ipairs(t, Some(k), p), 1).0 == [Nil];
    } else {
      TableGenerationFrom(t, scan.1.value, p);
      assert Yields(f) == [Yield(f[0])] + Yields(f[1..]);
      assert Run(Ipairs(t, Some(k), p), |f| + 1).0 == [scan.0] + Run(next, |f|).0;
    }
  }

  /**
   * A table source with prefix p: successive steps yield exactly the entries
   * that start with p, in table order, then nil; the cursor is then nil, and
   * one more step would raise.
   */
  lemma TableGeneration(t: seq<string>, p: string)
    requires NulFree(p) && AllNulFree(t)
    ensures Run(Start(Dispatch(Table(t)), p), |Filter(t, p)| + 1).0 == Yields(Filter(t, p)) + [Nil]
    ensures Run(Start(Dispatch(Table(t)), p), |Filter(t, p)| + 1).1 == Ipairs(t, None, p)
    ensures Step(Ipairs(t, None, p)).0 == Raise
  {
    TableGenerationFrom(t, 0, p);
    assert t[0..] == t;
  }

  lemma {:induction false} HostRun(next: nat -> StepResult, c: nat, n: nat)
    ensures forall i :: 0 <= i < n ==> Run(Host(next, c), n).0[i] == next(c + i)
    ensures Run(Host(next, c), n).1 == Host(next, c + n)
    decreases n
  {
    if n > 0 {
      HostRun(next, c + 1, n - 1);
    }
  }

  /**
   * A function source: the i-th step yields exactly what the function's
   * iterator returns on its i-th call; the binding does not filter it.
   */
  lemma HostGeneration(g: HostFunction, p: string, n: nat)
    ensures forall i :: 0 <= i < n ==> Run(Start(Dispatch(Function(g)), p), n).0[i] == g(p)(i)
  {
    HostRun(g(p), 0, n);
  }

  lemma {:induction false} ReturnNilRun(n: nat)
    ensures forall i :: 0 <= i < n ==> Run(ReturnNil, n).0[i] == Nil
    ensures Run(ReturnNil, n).1 == ReturnNil
    decreases n
  {
    if n > 0 {
      ReturnNilRun(n - 1);
    }
  }

  /** Any argument that is neither a function nor a table: every step is already exhaustion. */
  lemma {:induction false} AbsentGeneration(arg: LuaValue, p: string, n: nat)
    requires !arg.Function? && !arg.Table?
    ensures forall i :: 0 <= i < n ==> Run(Start(Dispatch(arg), p), n).0[i] == Nil
  {
    ReturnNilRun(n);
  }
}
