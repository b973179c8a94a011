/**
 * The optimizer rule that rewrites distinct aggregates into the multi-distinct
 * aggregate functions: count(distinct ...) becomes multi_distinct_count,
 * sum(distinct ...) becomes multi_distinct_sum, and avg(distinct ...) becomes a
 * projection divide(sum, count) over those two, reusing aggregation outputs
 * that already compute them.
 *
 * The function catalog lookup and the implicit-cast rewriter are parameters:
 * `lookup` returns the catalog function for a name and argument types, and
 * `castArgs` returns the (possibly cast) arguments the rewriter gives a call.
 * The column-ref factory is a counter `nextId` of the next unused column id.
 * HashMap iteration order is a parameter `order` listing the map's keys.
 */
module RewriteMultiDistinct {
  import opened Wrappers

  type ColumnId = int
  type TypeName = string

  const COUNT := "count"
  const SUM := "sum"
  const AVG := "avg"
  const MULTI_DISTINCT_COUNT := "multi_distinct_count"
  const MULTI_DISTINCT_SUM := "multi_distinct_sum"
  const DIVIDE := "divide"

  /** A catalog function: its name, argument types and return type. */
  datatype Function = Function(name: string, argTypes: seq<TypeName>, returnType: TypeName)

  /** Scalar operators: column references, calls, and any other leaf operand. */
  datatype Scalar =
    | ColumnRef(id: ColumnId)
    | Call(call: CallOp)
    | Constant(text: string)

  /** A call operator; `fn` is the resolved catalog function, None when unresolved. */
  datatype CallOp = CallOp(fnName: string, retType: TypeName, children: seq<Scalar>,
                           fn: Option<Function>, distinct: bool)

  datatype AggType = Local | Global | DistinctLocal | DistinctGlobal

  datatype AggregationOp = AggregationOp(aggType: AggType, groupingKeys: seq<ColumnId>,
                                         aggregations: map<ColumnId, CallOp>)

  /** An optimizer expression: an operator over its inputs; `Leaf` is an opaque input. */
  datatype Plan =
    | Leaf(id: int)
    | Aggregate(op: AggregationOp, inputs: seq<Plan>)
    | Project(projections: map<ColumnId, Scalar>, inputs: seq<Plan>)

  // ---------------------------------------------------------------------------
  // Names

  function ToLowerAscii(c: char): char
  {
    if 'A' <= c <= 'Z' then (c as int + 32) as char else c
  }

  /** String.equalsIgnoreCase, with ASCII case folding. */
  predicate EqualsIgnoreCase(a: string, b: string)
  {
    |a| == |b| && forall i :: 0 <= i < |a| ==> ToLowerAscii(a[i]) == ToLowerAscii(b[i])
  }

  lemma EqualsIgnoreCaseExamples()
    ensures EqualsIgnoreCase("COUNT", COUNT) && EqualsIgnoreCase("Sum", SUM)
    ensures !EqualsIgnoreCase(AVG, COUNT) && !EqualsIgnoreCase(AVG, SUM)
    ensures !EqualsIgnoreCase(COUNT, SUM)
  {
    assert ToLowerAscii('C') == 'c' && ToLowerAscii('O') == 'o' && ToLowerAscii('U') == 'u';
    assert ToLowerAscii('N') == 'n' && ToLowerAscii('T') == 't';
    assert ToLowerAscii('S') == 's' && ToLowerAscii('u') == 'u' && ToLowerAscii('m') == 'm';
    assert ToLowerAscii(AVG[0]) != ToLowerAscii(SUM[0]);
  }

  predicate IsDistinctAvg(c: CallOp)
  {
    c.distinct && c.fnName == AVG
  }

  /** The distinct calls whose rewrite consults the catalog function of the call. */
  predicate NeedsFunction(c: CallOp)
  {
    c.distinct && (EqualsIgnoreCase(c.fnName, COUNT) || EqualsIgnoreCase(c.fnName, SUM) || c.fnName == AVG)
  }

  predicate Resolved(aggs: map<ColumnId, CallOp>)
  {
    forall k :: k in aggs && NeedsFunction(aggs[k]) ==> aggs[k].fn.Some?
  }

  /** `order` lists every key of `m` exactly once: the map's iteration order. */
  predicate IsOrderOf<V>(order: seq<ColumnId>, m: map<ColumnId, V>)
  {
    && (forall i :: 0 <= i < |order| ==> order[i] in m)
    && (forall k :: k in m ==> k in order)
    && (forall i, j :: 0 <= i < j < |order| ==> order[i] != order[j])
  }

  // ---------------------------------------------------------------------------
  // check

  function DistinctKeys(aggs: map<ColumnId, CallOp>): set<ColumnId>
  {
    set k | k in aggs && aggs[k].distinct
  }

  /**
   * The rule applies when there are several distinct aggregates all over a
   * single column, or when some distinct aggregate is (case-sensitively) avg.
   */
  method Check(aggs: map<ColumnId, CallOp>, order: seq<ColumnId>) returns (applies: bool)
    requires IsOrderOf(order, aggs)
    ensures applies <==>
      (|DistinctKeys(aggs)| > 1 && !(exists k :: k in DistinctKeys(aggs) && |aggs[k].children| > 1))
      || (exists k :: k in aggs && IsDistinctAvg(aggs[k]))
  {
    var distinctCalls := DistinctKeys(aggs);
    var hasMultiColumns := false;
    var i := 0;
    while i < |order| && !hasMultiColumns
      invariant 0 <= i <= |order|
      invariant hasMultiColumns ==> i < |order| && aggs[order[i]].distinct && |aggs[order[i]].children| > 1
      invariant !hasMultiColumns ==> forall j :: 0 <= j < i && aggs[order[j]].distinct ==> |aggs[order[j]].children| <= 1
      decreases |order| - i, !hasMultiColumns
    {
      var call := aggs[order[i]];
      if call.distinct && |call.children| > 1 {
        hasMultiColumns := true;
      } else {
        i := i + 1;
      }
    }
    if hasMultiColumns {
      ghost var multi := order[i];
      assert multi in DistinctKeys(aggs) && |aggs[multi].children| > 1;
    } else {
      forall k | k in distinctCalls ensures |aggs[k].children| <= 1 {
        var j :| 0 <= j < |order| && order[j] == k;
      }
    }
    var anyAvg := exists k :: k in aggs && IsDistinctAvg(aggs[k]);
    applies := (|distinctCalls| > 1 && !hasMultiColumns) || anyAvg;
  }

  // ---------------------------------------------------------------------------
  // buildMultiCountDistinct / buildMultiSumDistinct

  /** The scalar rewriter with the implicit-cast rule: it rewrites the arguments of a call. */
  function Rewrite(c: CallOp, castArgs: CallOp -> seq<Scalar>): CallOp
  {
    c.(children := castArgs(c))
  }

  /** A non-distinct call of `name`, resolved against the catalog with the argument types of `call`. */
  function BuildMulti(name: string, call: CallOp, lookup: (string, seq<TypeName>) -> Function,
                      castArgs: CallOp -> seq<Scalar>): CallOp
    requires call.fn.Some?
  {
    var fn := lookup(name, call.fn.value.argTypes);
    Rewrite(CallOp(name, fn.returnType, call.children, Some(fn), false), castArgs)
  }

  /** multi_distinct_count over the arguments of `call`, resolved with its argument types. */
  function BuildMultiCountDistinct(call: CallOp, lookup: (string, seq<TypeName>) -> Function,
                                   castArgs: CallOp -> seq<Scalar>): (r: CallOp)
    requires call.fn.Some?
    ensures r.fnName == MULTI_DISTINCT_COUNT && !r.distinct
    ensures r.fn == Some(lookup(MULTI_DISTINCT_COUNT, call.fn.value.argTypes))
    ensures r.retType == lookup(MULTI_DISTINCT_COUNT, call.fn.value.argTypes).returnType
    ensures !IsDistinctAvg(r) && !NeedsFunction(r)
  {
    BuildMulti(MULTI_DISTINCT_COUNT, call, lookup, castArgs)
  }

  /** multi_distinct_sum over the arguments of `call`, resolved with its argument types. */
  function BuildMultiSumDistinct(call: CallOp, lookup: (string, seq<TypeName>) -> Function,
                                 castArgs: CallOp -> seq<Scalar>): (r: CallOp)
    requires call.fn.Some?
    ensures r.fnName == MULTI_DISTINCT_SUM && !r.distinct
    ensures r.fn == Some(lookup(MULTI_DISTINCT_SUM, call.fn.value.argTypes))
    ensures r.retType == lookup(MULTI_DISTINCT_SUM, call.fn.value.argTypes).returnType
    ensures !IsDistinctAvg(r) && !NeedsFunction(r)
  {
    BuildMulti(MULTI_DISTINCT_SUM, call, lookup, castArgs)
  }

  /** The built call is a plain aggregate, resolved to the catalog's function of that name. */
  lemma BuildMultiShape(name: string, call: CallOp, lookup: (string, seq<TypeName>) -> Function,
                        castArgs: CallOp -> seq<Scalar>)
    requires call.fn.Some?
    ensures var r := BuildMulti(name, call, lookup, castArgs);
      && r.fnName == name && !r.distinct
      && r.fn == Some(lookup(name, call.fn.value.argTypes))
      && r.retType == lookup(name, call.fn.value.argTypes).returnType
      && r.children == castArgs(CallOp(name, lookup(name, call.fn.value.argTypes).returnType, call.children,
                                       Some(lookup(name, call.fn.value.argTypes)), false))
      && !IsDistinctAvg(r) && !NeedsFunction(r)
  {
  }

  /** The count and the sum built for the same call never coincide. */
  lemma CountAndSumDiffer(call: CallOp, lookup: (string, seq<TypeName>) -> Function,
                          castArgs: CallOp -> seq<Scalar>)
    requires call.fn.Some?
    ensures BuildMultiCountDistinct(call, lookup, castArgs) != BuildMultiSumDistinct(call, lookup, castArgs)
  {
    assert MULTI_DISTINCT_COUNT[15] != MULTI_DISTINCT_SUM[15];
  }

  /** Calls with the same arguments and the same argument types give the same multi-distinct call. */
  lemma BuildMultiDependsOnArguments(name: string, a: CallOp, b: CallOp,
                                     lookup: (string, seq<TypeName>) -> Function,
                                     castArgs: CallOp -> seq<Scalar>)
    requires a.fn.Some? && b.fn.Some?
    ensures (a.children == b.children && a.fn.value.argTypes == b.fn.value.argTypes)
            ==> BuildMulti(name, a, lookup, castArgs) == BuildMulti(name, b, lookup, castArgs)
  {
  }

  // ---------------------------------------------------------------------------
  // transform, first pass

  /** The first pass of transform on one aggregate call. */
  function FirstPass(c: CallOp, lookup: (string, seq<TypeName>) -> Function,
                     castArgs: CallOp -> seq<Scalar>): CallOp
    requires NeedsFunction(c) ==> c.fn.Some?
  {
    if c.distinct then
      if EqualsIgnoreCase(c.fnName, COUNT) then BuildMultiCountDistinct(c, lookup, castArgs)
      else if EqualsIgnoreCase(c.fnName, SUM) then BuildMultiSumDistinct(c, lookup, castArgs)
      else c
    else c
  }

  function FirstPassMap(aggs: map<ColumnId, CallOp>, lookup: (string, seq<TypeName>) -> Function,
                        castArgs: CallOp -> seq<Scalar>): map<ColumnId, CallOp>
    requires Resolved(aggs)
  {
    map k | k in aggs :: FirstPass(aggs[k], lookup, castArgs)
  }

  /**
   * Non-distinct calls are kept; distinct count and sum (any letter case)
   * become multi_distinct_count and multi_distinct_sum; other distinct calls
   * are kept.
   */
  lemma FirstPassCases(c: CallOp, lookup: (string, seq<TypeName>) -> Function,
                       castArgs: CallOp -> seq<Scalar>)
    requires NeedsFunction(c) ==> c.fn.Some?
    ensures var r := FirstPass(c, lookup, castArgs);
      && (!c.distinct ==> r == c)
      && (c.distinct && EqualsIgnoreCase(c.fnName, COUNT) ==>
            r.fnName == MULTI_DISTINCT_COUNT && !r.distinct && r == BuildMultiCountDistinct(c, lookup, castArgs))
      && (c.distinct && EqualsIgnoreCase(c.fnName, SUM) ==>
            r.fnName == MULTI_DISTINCT_SUM && !r.distinct && r == BuildMultiSumDistinct(c, lookup, castArgs))
      && (c.distinct && !EqualsIgnoreCase(c.fnName, COUNT) && !EqualsIgnoreCase(c.fnName, SUM) ==> r == c)
  {
    EqualsIgnoreCaseExamples();
    if c.distinct && EqualsIgnoreCase(c.fnName, COUNT) {
      BuildMultiShape(MULTI_DISTINCT_COUNT, c, lookup, castArgs);
      assert |c.fnName| == |COUNT| != |SUM|;
    } else if c.distinct && EqualsIgnoreCase(c.fnName, SUM) {
      BuildMultiShape(MULTI_DISTINCT_SUM, c, lookup, castArgs);
    }
  }

  /** The first pass leaves distinct avg calls alone and creates no new ones. */
  lemma FirstPassKeepsAvg(c: CallOp, lookup: (string, seq<TypeName>) -> Function,
                          castArgs: CallOp -> seq<Scalar>)
    requires NeedsFunction(c) ==> c.fn.Some?
    ensures IsDistinctAvg(FirstPass(c, lookup, castArgs)) <==> IsDistinctAvg(c)
    ensures IsDistinctAvg(c) ==> FirstPass(c, lookup, castArgs) == c
  {
    EqualsIgnoreCaseExamples();
    FirstPassCases(c, lookup, castArgs);
  }

  /** After the first pass the map is resolved where the second pass needs it. */
  lemma FirstPassMapProperties(aggs: map<ColumnId, CallOp>, lookup: (string, seq<TypeName>) -> Function,
                               castArgs: CallOp -> seq<Scalar>)
    requires Resolved(aggs)
    ensures var m := FirstPassMap(aggs, lookup, castArgs);
      && m.Keys == aggs.Keys
      && (forall k :: k in m && IsDistinctAvg(m[k]) ==> m[k].fn.Some?)
      && ((exists k :: k in m && IsDistinctAvg(m[k])) <==> (exists k :: k in aggs && IsDistinctAvg(aggs[k])))
  {
    var m := FirstPassMap(aggs, lookup, castArgs);
    forall k | k in aggs
      ensures IsDistinctAvg(m[k]) <==> IsDistinctAvg(aggs[k])
      ensures IsDistinctAvg(aggs[k]) ==> m[k] == aggs[k]
    {
      FirstPassKeepsAvg(aggs[k], lookup, castArgs);
    }
  }

  /** The first loop of transform: every entry rewritten by the first pass. */
  method RewriteDistinctCalls(aggs: map<ColumnId, CallOp>, order: seq<ColumnId>,
                              lookup: (string, seq<TypeName>) -> Function,
                              castArgs: CallOp -> seq<Scalar>)
    returns (newAggMap: map<ColumnId, CallOp>)
    requires IsOrderOf(order, aggs)
    requires Resolved(aggs)
    ensures newAggMap == FirstPassMap(aggs, lookup, castArgs)
  {
    newAggMap := map[];
    var i := 0;
    while i < |order|
      invariant 0 <= i <= |order|
      invariant newAggMap.Keys == set j | 0 <= j < i :: order[j]
      invariant forall k :: k in newAggMap ==> newAggMap[k] == FirstPass(aggs[k], lookup, castArgs)
    {
      var key := order[i];
      var oldFunctionCall := aggs[key];
      if oldFunctionCall.distinct {
        var newAggOperator := oldFunctionCall;
        if EqualsIgnoreCase(oldFunctionCall.fnName, COUNT) {
          newAggOperator := BuildMultiCountDistinct(oldFunctionCall, lookup, castArgs);
        } else if EqualsIgnoreCase(oldFunctionCall.fnName, SUM) {
          newAggOperator := BuildMultiSumDistinct(oldFunctionCall, lookup, castArgs);
        }
        newAggMap := newAggMap[key := newAggOperator];
      } else {
        newAggMap := newAggMap[key := oldFunctionCall];
      }
      i := i + 1;
    }
    assert newAggMap.Keys == aggs.Keys by {
      forall k | k in aggs ensures k in newAggMap {
        var j :| 0 <= j < |order| && order[j] == k;
      }
    }
  }

  // ---------------------------------------------------------------------------
  // transform, second pass

  /** `c` is the first key of `m`, in iteration order, whose call equals `call`. */
  predicate IsFirstMatch(order: seq<ColumnId>, m: map<ColumnId, CallOp>, call: CallOp, c: ColumnId)
  {
    && c in m && m[c] == call
    && exists i :: 0 <= i < |order| && order[i] == c
         && forall j :: 0 <= j < i ==> order[j] in m && m[order[j]] != call
  }

  /**
   * The column chosen for `call`: the first existing output computing it, or,
   * when there is none, a column created by the factory in [lo, hi).
   */
  predicate ColumnFor(order: seq<ColumnId>, m: map<ColumnId, CallOp>, call: CallOp,
                      c: ColumnId, lo: ColumnId, hi: ColumnId)
  {
    if exists k :: k in m && m[k] == call then IsFirstMatch(order, m, call, c) else lo <= c < hi
  }

  /** The inner search loop: the first entry of `m` whose call equals `call`. */
  method FindColumn(m: map<ColumnId, CallOp>, order: seq<ColumnId>, call: CallOp)
    returns (found: Option<ColumnId>)
    requires IsOrderOf(order, m)
    ensures found.Some? ==> IsFirstMatch(order, m, call, found.value)
    ensures found.None? ==> forall k :: k in m ==> m[k] != call
  {
    found := None;
    var i := 0;
    while i < |order|
      invariant 0 <= i <= |order|
      invariant forall j :: 0 <= j < i ==> order[j] in m && m[order[j]] != call
    {
      if m[order[i]] == call {
        found := Some(order[i]);
        return;
      }
      i := i + 1;
    }
    forall k | k in m ensures m[k] != call {
      var j :| 0 <= j < |order| && order[j] == k;
    }
  }

  /** The search followed by the factory fallback: an existing column, else a fresh one. */
  method ColumnForCall(m: map<ColumnId, CallOp>, order: seq<ColumnId>, call: CallOp, nextId: ColumnId)
    returns (col: ColumnId, nextId': ColumnId)
    requires IsOrderOf(order, m)
    requires forall k :: k in m ==> k < nextId
    ensures ColumnFor(order, m, call, col, nextId, nextId')
    ensures col in m ==> m[col] == call
    ensures nextId' == if exists k :: k in m && m[k] == call then nextId else nextId + 1
    ensures col !in m ==> col == nextId
  {
    var found := FindColumn(m, order, call);
    if found.None? {
      col, nextId' := nextId, nextId + 1;
    } else {
      col, nextId' := found.value, nextId;
    }
  }

  function DivideCall(avg: CallOp, sumCol: ColumnId, countCol: ColumnId,
                      castArgs: CallOp -> seq<Scalar>): CallOp
  {
    Rewrite(CallOp(DIVIDE, avg.retType, [ColumnRef(sumCol), ColumnRef(countCol)], None, false), castArgs)
  }

  function AvgKeys(m: map<ColumnId, CallOp>): set<ColumnId>
  {
    set k | k in m && IsDistinctAvg(m[k])
  }

  /** How an avg key was rewritten: its count and sum columns, and its projection. */
  predicate AvgRewritten(order: seq<ColumnId>, m: map<ColumnId, CallOp>, k: ColumnId,
                         countCol: ColumnId, sumCol: ColumnId, projection: Scalar,
                         withAvg: map<ColumnId, CallOp>, lo: ColumnId, hi: ColumnId,
                         lookup: (string, seq<TypeName>) -> Function, castArgs: CallOp -> seq<Scalar>)
  {
    && k in m && m[k].fn.Some?
    && var count := BuildMultiCountDistinct(m[k], lookup, castArgs);
       var sum := BuildMultiSumDistinct(m[k], lookup, castArgs);
       && countCol in withAvg && withAvg[countCol] == count
       && sumCol in withAvg && withAvg[sumCol] == sum
       && projection == Call(DivideCall(m[k], sumCol, countCol, castArgs))
       && ColumnFor(order, m, count, countCol, lo, hi)
       && ColumnFor(order, m, sum, sumCol, lo, hi)
  }

  /**
   * Every entry of the new aggregation map is an entry of `m` that is not a
   * distinct avg, or a column the factory created in [lo, hi).
   */
  predicate EntriesFrom(m: map<ColumnId, CallOp>, withAvg: map<ColumnId, CallOp>, lo: ColumnId, hi: ColumnId)
  {
    forall c :: c in withAvg ==> (c in m && !IsDistinctAvg(m[c]) && withAvg[c] == m[c]) || lo <= c < hi
  }

  /** Putting a key's existing value again, or a new key, keeps every entry. */
  lemma PutKeeps(w: map<ColumnId, CallOp>, c: ColumnId, v: CallOp)
    requires c in w ==> w[c] == v
    ensures forall x :: x in w ==> x in w[c := v] && w[c := v][x] == w[x]
  {
  }

  /** One avg entry of the second loop: its count and sum columns are chosen and recorded. */
  method RewriteOneAvg(m: map<ColumnId, CallOp>, order: seq<ColumnId>, k: ColumnId,
                       withAvg: map<ColumnId, CallOp>, lo: ColumnId, nextId: ColumnId,
                       lookup: (string, seq<TypeName>) -> Function, castArgs: CallOp -> seq<Scalar>)
    returns (countCol: ColumnId, sumCol: ColumnId, projection: Scalar,
             withAvg': map<ColumnId, CallOp>, nextId': ColumnId)
    requires IsOrderOf(order, m)
    requires k in m && IsDistinctAvg(m[k]) && m[k].fn.Some?
    requires forall c :: c in m ==> c < lo
    requires lo <= nextId
    requires EntriesFrom(m, withAvg, lo, nextId)
    ensures nextId <= nextId'
    ensures EntriesFrom(m, withAvg', lo, nextId')
    ensures forall x :: x in withAvg ==> x in withAvg' && withAvg'[x] == withAvg[x]
    ensures AvgRewritten(order, m, k, countCol, sumCol, projection, withAvg', lo, nextId', lookup, castArgs)
    ensures withAvg' == withAvg[countCol := BuildMultiCountDistinct(m[k], lookup, castArgs)]
                               [sumCol := BuildMultiSumDistinct(m[k], lookup, castArgs)]
    ensures nextId' == nextId + (if countCol in m then 0 else 1) + (if sumCol in m then 0 else 1)
  {
    var oldFunctionCall := m[k];
    var count := BuildMultiCountDistinct(oldFunctionCall, lookup, castArgs);
    BuildMultiShape(MULTI_DISTINCT_COUNT, oldFunctionCall, lookup, castArgs);
    var id1;
    countCol, id1 := ColumnForCall(m, order, count, nextId);
    PutKeeps(withAvg, countCol, count);
    var w1 := withAvg[countCol := count];

    var sum := BuildMultiSumDistinct(oldFunctionCall, lookup, castArgs);
    BuildMultiShape(MULTI_DISTINCT_SUM, oldFunctionCall, lookup, castArgs);
    CountAndSumDiffer(oldFunctionCall, lookup, castArgs);
    sumCol, nextId' := ColumnForCall(m, order, sum, id1);
    PutKeeps(w1, sumCol, sum);
    withAvg' := w1[sumCol := sum];

    projection := Call(DivideCall(oldFunctionCall, sumCol, countCol, castArgs));
  }

  /** Every non-avg entry met so far is kept and projected to itself. */
  ghost predicate KeptSoFar(m: map<ColumnId, CallOp>, projections: map<ColumnId, Scalar>, withAvg: map<ColumnId, CallOp>)
  {
    forall k :: k in projections && k in m && !IsDistinctAvg(m[k]) ==>
      projections[k] == ColumnRef(k) && k in withAvg && withAvg[k] == m[k]
  }

  /** Every avg entry met so far is rewritten. */
  ghost predicate RewrittenSoFar(order: seq<ColumnId>, m: map<ColumnId, CallOp>,
                           countCol: map<ColumnId, ColumnId>, sumCol: map<ColumnId, ColumnId>,
                           projections: map<ColumnId, Scalar>, withAvg: map<ColumnId, CallOp>,
                           lo: ColumnId, hi: ColumnId,
                           lookup: (string, seq<TypeName>) -> Function, castArgs: CallOp -> seq<Scalar>)
  {
    forall k :: k in countCol ==>
      && k in sumCol && k in projections
      && AvgRewritten(order, m, k, countCol[k], sumCol[k], projections[k], withAvg, lo, hi, lookup, castArgs)
  }

  /** Recorded avg rewrites survive growing the maps and the factory counter. */
  lemma KeepRewritten(order: seq<ColumnId>, m: map<ColumnId, CallOp>,
                      countCol: map<ColumnId, ColumnId>, sumCol: map<ColumnId, ColumnId>,
                      projections: map<ColumnId, Scalar>, w: map<ColumnId, CallOp>, w': map<ColumnId, CallOp>,
                      lo: ColumnId, hi: ColumnId, hi': ColumnId,
                      lookup: (string, seq<TypeName>) -> Function, castArgs: CallOp -> seq<Scalar>)
    requires hi <= hi'
    requires forall x :: x in w ==> x in w' && w'[x] == w[x]
    requires RewrittenSoFar(order, m, countCol, sumCol, projections, w, lo, hi, lookup, castArgs)
    ensures RewrittenSoFar(order, m, countCol, sumCol, projections, w', lo, hi', lookup, castArgs)
  {
  }

  /** At the end of the second loop every key has been met. */
  lemma SecondPassKeys<P, C>(order: seq<ColumnId>, m: map<ColumnId, CallOp>,
                             projections: map<ColumnId, P>, countCol: map<ColumnId, C>)
    requires IsOrderOf(order, m)
    requires forall j :: 0 <= j < |order| ==> order[j] in projections
    requires forall k :: k in projections ==> k in m
    requires forall k :: k in countCol <==> k in projections && k in m && IsDistinctAvg(m[k])
    ensures projections.Keys == m.Keys
    ensures countCol.Keys == AvgKeys(m)
  {
    forall k | k in m ensures k in projections {
      var j :| 0 <= j < |order| && order[j] == k;
    }
    forall k ensures k in projections.Keys <==> k in m.Keys {
    }
    forall k ensures k in countCol.Keys <==> k in AvgKeys(m) {
    }
  }

  /** The invariant of the second loop after the first `i` keys in iteration order. */
  ghost predicate SecondPassInv(m: map<ColumnId, CallOp>, order: seq<ColumnId>, i: nat, nextId0: ColumnId,
                                hasAvg: bool, someAvg: ColumnId, projections: map<ColumnId, Scalar>,
                                withAvg: map<ColumnId, CallOp>, nextId: ColumnId,
                                countCol: map<ColumnId, ColumnId>, sumCol: map<ColumnId, ColumnId>,
                                lookup: (string, seq<TypeName>) -> Function, castArgs: CallOp -> seq<Scalar>)
  {
    && IsOrderOf(order, m)
    && i <= |order|
    && (forall k :: k in m ==> k < nextId0)
    && (hasAvg ==> someAvg in m && IsDistinctAvg(m[someAvg]))
    && (!hasAvg ==> nextId == nextId0 && forall j :: 0 <= j < i ==> !IsDistinctAvg(m[order[j]]))
    && nextId0 <= nextId
    && (forall j :: 0 <= j < i ==> order[j] in projections)
    && (forall k :: k in projections ==> k in m)
    && (forall k :: k in countCol <==> k in projections && k in m && IsDistinctAvg(m[k]))
    && sumCol.Keys == countCol.Keys
    && KeptSoFar(m, projections, withAvg)
    && RewrittenSoFar(order, m, countCol, sumCol, projections, withAvg, nextId0, nextId, lookup, castArgs)
    && EntriesFrom(m, withAvg, nextId0, nextId)
  }

  /** A key that is not a distinct avg keeps its call and is projected to itself. */
  lemma PlainStep(m: map<ColumnId, CallOp>, order: seq<ColumnId>, i: nat, nextId0: ColumnId,
                  hasAvg: bool, someAvg: ColumnId, projections: map<ColumnId, Scalar>,
                  withAvg: map<ColumnId, CallOp>, nextId: ColumnId,
                  countCol: map<ColumnId, ColumnId>, sumCol: map<ColumnId, ColumnId>,
                  lookup: (string, seq<TypeName>) -> Function, castArgs: CallOp -> seq<Scalar>)
    requires SecondPassInv(m, order, i, nextId0, hasAvg, someAvg, projections, withAvg, nextId,
                           countCol, sumCol, lookup, castArgs)
    requires i < |order| && !IsDistinctAvg(m[order[i]])
    ensures var key := order[i];
      SecondPassInv(m, order, i + 1, nextId0, hasAvg, someAvg, projections[key := ColumnRef(key)],
                    withAvg[key := m[key]], nextId, countCol, sumCol, lookup, castArgs)
  {
    var key := order[i];
    PutKeeps(withAvg, key, m[key]);
    KeepRewritten(order, m, countCol, sumCol, projections, withAvg, withAvg[key := m[key]],
                  nextId0, nextId, nextId, lookup, castArgs);
    assert RewrittenSoFar(order, m, countCol, sumCol, projections[key := ColumnRef(key)],
                          withAvg[key := m[key]], nextId0, nextId, lookup, castArgs);
  }

  /** A distinct avg is recorded with the columns and projection RewriteOneAvg chose. */
  lemma AvgStep(m: map<ColumnId, CallOp>, order: seq<ColumnId>, i: nat, nextId0: ColumnId,
                hasAvg: bool, someAvg: ColumnId, projections: map<ColumnId, Scalar>,
                withAvg: map<ColumnId, CallOp>, nextId: ColumnId,
                countCol: map<ColumnId, ColumnId>, sumCol: map<ColumnId, ColumnId>,
                c: ColumnId, s: ColumnId, projection: Scalar, w: map<ColumnId, CallOp>, n: ColumnId,
                lookup: (string, seq<TypeName>) -> Function, castArgs: CallOp -> seq<Scalar>)
    requires SecondPassInv(m, order, i, nextId0, hasAvg, someAvg, projections, withAvg, nextId,
                           countCol, sumCol, lookup, castArgs)
    requires i < |order| && IsDistinctAvg(m[order[i]]) && m[order[i]].fn.Some?
    requires nextId <= n
    requires EntriesFrom(m, w, nextId0, n)
    requires forall x :: x in withAvg ==> x in w && w[x] == withAvg[x]
    requires AvgRewritten(order, m, order[i], c, s, projection, w, nextId0, n, lookup, castArgs)
    ensures var key := order[i];
      SecondPassInv(m, order, i + 1, nextId0, true, key, projections[key := projection],
                    w, n, countCol[key := c], sumCol[key := s], lookup, castArgs)
  {
    var key := order[i];
    KeepRewritten(order, m, countCol, sumCol, projections, withAvg, w, nextId0, nextId, n, lookup, castArgs);
    var countCol', sumCol', projections' := countCol[key := c], sumCol[key := s], projections[key := projection];
    assert RewrittenSoFar(order, m, countCol', sumCol', projections', w, nextId0, n, lookup, castArgs);
    assert KeptSoFar(m, projections', w) by {
      forall k | k in projections' && k in m && !IsDistinctAvg(m[k])
        ensures projections'[k] == ColumnRef(k) && k in w && w[k] == m[k]
      {
        assert k != key && k in projections;
      }
    }
    assert forall j :: 0 <= j < i + 1 ==> order[j] in projections';
    assert forall k :: k in countCol' <==> k in projections' && k in m && IsDistinctAvg(m[k]);
    assert sumCol'.Keys == countCol'.Keys;
  }

  /**
   * Every column of the new map that is not a key of `m` is the count or the
   * sum column of one of the avgs met among the first `i` keys.
   */
  ghost predicate FreshFromAvgsSoFar(m: map<ColumnId, CallOp>, order: seq<ColumnId>, i: nat,
                                     withAvg: map<ColumnId, CallOp>,
                                     countCol: map<ColumnId, ColumnId>, sumCol: map<ColumnId, ColumnId>)
  {
    forall c :: c in withAvg && c !in m ==>
      exists j :: 0 <= j < i && j < |order| && order[j] in countCol && order[j] in sumCol &&
                  (countCol[order[j]] == c || sumCol[order[j]] == c)
  }

  /** While every avg met among the first `i` keys reused existing columns, the factory was not used. */
  ghost predicate FactorySoFar(m: map<ColumnId, CallOp>, order: seq<ColumnId>, i: nat,
                               countCol: map<ColumnId, ColumnId>, sumCol: map<ColumnId, ColumnId>,
                               lo: ColumnId, hi: ColumnId)
  {
    (forall j :: 0 <= j < i && j < |order| && order[j] in countCol ==>
       countCol[order[j]] in m && order[j] in sumCol && sumCol[order[j]] in m) ==> hi == lo
  }

  /** The columns the second pass adds to `m`: only count and sum columns of avgs. */
  ghost predicate OnlyAvgColumnsAdded(m: map<ColumnId, CallOp>, withAvg: map<ColumnId, CallOp>,
                                      countCol: map<ColumnId, ColumnId>, sumCol: map<ColumnId, ColumnId>)
  {
    forall c :: c in withAvg && c !in m ==>
      exists k :: k in countCol && k in sumCol && (countCol[k] == c || sumCol[k] == c)
  }

  /** When every avg found both its columns in `m`, no column id was taken from the factory. */
  ghost predicate NoFactoryOnReuse(m: map<ColumnId, CallOp>,
                                   countCol: map<ColumnId, ColumnId>, sumCol: map<ColumnId, ColumnId>,
                                   lo: ColumnId, hi: ColumnId)
  {
    (forall k :: k in countCol ==> countCol[k] in m && k in sumCol && sumCol[k] in m) ==> hi == lo
  }

  /** A key that is not a distinct avg adds no column and takes no id. */
  lemma PlainFreshStep(m: map<ColumnId, CallOp>, order: seq<ColumnId>, i: nat,
                       withAvg: map<ColumnId, CallOp>,
                       countCol: map<ColumnId, ColumnId>, sumCol: map<ColumnId, ColumnId>,
                       lo: ColumnId, hi: ColumnId)
    requires i < |order| && order[i] in m
    requires FreshFromAvgsSoFar(m, order, i, withAvg, countCol, sumCol)
    requires FactorySoFar(m, order, i, countCol, sumCol, lo, hi)
    ensures FreshFromAvgsSoFar(m, order, i + 1, withAvg[order[i] := m[order[i]]], countCol, sumCol)
    ensures FactorySoFar(m, order, i + 1, countCol, sumCol, lo, hi)
  {
    var key := order[i];
    forall c | c in withAvg[key := m[key]] && c !in m
      ensures exists j :: 0 <= j < i + 1 && j < |order| && order[j] in countCol && order[j] in sumCol &&
                          (countCol[order[j]] == c || sumCol[order[j]] == c)
    {
      var j :| 0 <= j < i && j < |order| && order[j] in countCol && order[j] in sumCol &&
               (countCol[order[j]] == c || sumCol[order[j]] == c);
    }
  }

  /** An avg adds only its own two columns and takes an id for each one not found in `m`. */
  lemma AvgFreshStep(m: map<ColumnId, CallOp>, order: seq<ColumnId>, i: nat,
                     withAvg: map<ColumnId, CallOp>,
                     countCol: map<ColumnId, ColumnId>, sumCol: map<ColumnId, ColumnId>,
                     lo: ColumnId, hi: ColumnId, c: ColumnId, s: ColumnId, x: CallOp, y: CallOp, hi': ColumnId)
    requires IsOrderOf(order, m) && i < |order|
    requires FreshFromAvgsSoFar(m, order, i, withAvg, countCol, sumCol)
    requires FactorySoFar(m, order, i, countCol, sumCol, lo, hi)
    requires hi' == hi + (if c in m then 0 else 1) + (if s in m then 0 else 1)
    ensures FreshFromAvgsSoFar(m, order, i + 1, withAvg[c := x][s := y], countCol[order[i] := c], sumCol[order[i] := s])
    ensures FactorySoFar(m, order, i + 1, countCol[order[i] := c], sumCol[order[i] := s], lo, hi')
  {
    var key := order[i];
    var countCol', sumCol' := countCol[key := c], sumCol[key := s];
    forall z | z in withAvg[c := x][s := y] && z !in m
      ensures exists j :: 0 <= j < i + 1 && j < |order| && order[j] in countCol' && order[j] in sumCol' &&
                          (countCol'[order[j]] == z || sumCol'[order[j]] == z)
    {
      if z == c || z == s {
        assert order[i] in countCol' && order[i] in sumCol' && (countCol'[order[i]] == z || sumCol'[order[i]] == z);
      } else {
        var j :| 0 <= j < i && j < |order| && order[j] in countCol && order[j] in sumCol &&
                 (countCol[order[j]] == z || sumCol[order[j]] == z);
        assert order[j] != key;
        assert order[j] in countCol' && order[j] in sumCol' && (countCol'[order[j]] == z || sumCol'[order[j]] == z);
      }
    }
    if forall j :: 0 <= j < i + 1 && j < |order| && order[j] in countCol' ==>
         countCol'[order[j]] in m && order[j] in sumCol' && sumCol'[order[j]] in m
    {
      assert countCol'[order[i]] in m && sumCol'[order[i]] in m;
      forall j | 0 <= j < i && j < |order| && order[j] in countCol
        ensures countCol[order[j]] in m && order[j] in sumCol && sumCol[order[j]] in m
      {
        assert order[j] != key;
        assert order[j] in countCol';
      }
    }
  }

  /** At the end of the second loop the running facts speak of the avg keys. */
  lemma FreshFinal(m: map<ColumnId, CallOp>, order: seq<ColumnId>,
                   withAvg: map<ColumnId, CallOp>,
                   countCol: map<ColumnId, ColumnId>, sumCol: map<ColumnId, ColumnId>,
                   lo: ColumnId, hi: ColumnId)
    requires IsOrderOf(order, m)
    requires forall k :: k in countCol ==> k in m
    requires FreshFromAvgsSoFar(m, order, |order|, withAvg, countCol, sumCol)
    requires FactorySoFar(m, order, |order|, countCol, sumCol, lo, hi)
    ensures OnlyAvgColumnsAdded(m, withAvg, countCol, sumCol)
    ensures NoFactoryOnReuse(m, countCol, sumCol, lo, hi)
  {
    forall c | c in withAvg && c !in m
      ensures exists k :: k in countCol && k in sumCol && (countCol[k] == c || sumCol[k] == c)
    {
      var j :| 0 <= j < |order| && j < |order| && order[j] in countCol && order[j] in sumCol &&
               (countCol[order[j]] == c || sumCol[order[j]] == c);
      assert order[j] in countCol && order[j] in sumCol;
    }
  }

  /** The second loop's invariant together with what it has added and taken from the factory. */
  ghost predicate SecondPassFull(m: map<ColumnId, CallOp>, order: seq<ColumnId>, i: nat, nextId0: ColumnId,
                                 hasAvg: bool, someAvg: ColumnId, projections: map<ColumnId, Scalar>,
                                 withAvg: map<ColumnId, CallOp>, nextId: ColumnId,
                                 countCol: map<ColumnId, ColumnId>, sumCol: map<ColumnId, ColumnId>,
                                 lookup: (string, seq<TypeName>) -> Function, castArgs: CallOp -> seq<Scalar>)
  {
    && SecondPassInv(m, order, i, nextId0, hasAvg, someAvg, projections, withAvg, nextId,
                     countCol, sumCol, lookup, castArgs)
    && FreshFromAvgsSoFar(m, order, i, withAvg, countCol, sumCol)
    && FactorySoFar(m, order, i, countCol, sumCol, nextId0, nextId)
  }

  /** PlainStep and PlainFreshStep together. */
  lemma PlainFullStep(m: map<ColumnId, CallOp>, order: seq<ColumnId>, i: nat, nextId0: ColumnId,
                      hasAvg: bool, someAvg: ColumnId, projections: map<ColumnId, Scalar>,
                      withAvg: map<ColumnId, CallOp>, nextId: ColumnId,
                      countCol: map<ColumnId, ColumnId>, sumCol: map<ColumnId, ColumnId>,
                      lookup: (string, seq<TypeName>) -> Function, castArgs: CallOp -> seq<Scalar>)
    requires SecondPassFull(m, order, i, nextId0, hasAvg, someAvg, projections, withAvg, nextId,
                            countCol, sumCol, lookup, castArgs)
    requires i < |order| && !IsDistinctAvg(m[order[i]])
    ensures var key := order[i];
      SecondPassFull(m, order, i + 1, nextId0, hasAvg, someAvg, projections[key := ColumnRef(key)],
                     withAvg[key := m[key]], nextId, countCol, sumCol, lookup, castArgs)
  {
    PlainStep(m, order, i, nextId0, hasAvg, someAvg, projections, withAvg, nextId, countCol, sumCol,
              lookup, castArgs);
    PlainFreshStep(m, order, i, withAvg, countCol, sumCol, nextId0, nextId);
  }

  /** AvgStep and AvgFreshStep together, for the columns and map RewriteOneAvg returned. */
  lemma AvgFullStep(m: map<ColumnId, CallOp>, order: seq<ColumnId>, i: nat, nextId0: ColumnId,
                    hasAvg: bool, someAvg: ColumnId, projections: map<ColumnId, Scalar>,
                    withAvg: map<ColumnId, CallOp>, nextId: ColumnId,
                    countCol: map<ColumnId, ColumnId>, sumCol: map<ColumnId, ColumnId>,
                    c: ColumnId, s: ColumnId, projection: Scalar, w: map<ColumnId, CallOp>, n: ColumnId,
                    lookup: (string, seq<TypeName>) -> Function, castArgs: CallOp -> seq<Scalar>)
    requires SecondPassFull(m, order, i, nextId0, hasAvg, someAvg, projections, withAvg, nextId,
                            countCol, sumCol, lookup, castArgs)
    requires i < |order| && IsDistinctAvg(m[order[i]]) && m[order[i]].fn.Some?
    requires nextId <= n
    requires EntriesFrom(m, w, nextId0, n)
    requires forall x :: x in withAvg ==> x in w && w[x] == withAvg[x]
    requires AvgRewritten(order, m, order[i], c, s, projection, w, nextId0, n, lookup, castArgs)
    requires w == withAvg[c := BuildMultiCountDistinct(m[order[i]], lookup, castArgs)]
                         [s := BuildMultiSumDistinct(m[order[i]], lookup, castArgs)]
    requires n == nextId + (if c in m then 0 else 1) + (if s in m then 0 else 1)
    ensures var key := order[i];
      SecondPassFull(m, order, i + 1, nextId0, true, key, projections[key := projection],
                     w, n, countCol[key := c], sumCol[key := s], lookup, castArgs)
  {
    AvgStep(m, order, i, nextId0, hasAvg, someAvg, projections, withAvg, nextId, countCol, sumCol,
            c, s, projection, w, n, lookup, castArgs);
    AvgFreshStep(m, order, i, withAvg, countCol, sumCol, nextId0, nextId, c, s,
                 BuildMultiCountDistinct(m[order[i]], lookup, castArgs),
                 BuildMultiSumDistinct(m[order[i]], lookup, castArgs), n);
  }

  /**
   * One entry of the second loop: a distinct avg is rewritten over its count
   * and sum columns, any other entry is kept and projected to itself.
   */
  method RewriteEntry(m: map<ColumnId, CallOp>, order: seq<ColumnId>, i: nat, nextId0: ColumnId,
                      hasAvg: bool, ghost someAvg: ColumnId, projections: map<ColumnId, Scalar>,
                      withAvg: map<ColumnId, CallOp>, nextId: ColumnId,
                      ghost countCol: map<ColumnId, ColumnId>, ghost sumCol: map<ColumnId, ColumnId>,
                      lookup: (string, seq<TypeName>) -> Function, castArgs: CallOp -> seq<Scalar>)
    returns (hasAvg': bool, ghost someAvg': ColumnId, projections': map<ColumnId, Scalar>,
             withAvg': map<ColumnId, CallOp>, nextId': ColumnId,
             ghost countCol': map<ColumnId, ColumnId>, ghost sumCol': map<ColumnId, ColumnId>)
    requires SecondPassFull(m, order, i, nextId0, hasAvg, someAvg, projections, withAvg, nextId,
                            countCol, sumCol, lookup, castArgs)
    requires i < |order|
    requires forall k :: k in m && IsDistinctAvg(m[k]) ==> m[k].fn.Some?
    ensures SecondPassFull(m, order, i + 1, nextId0, hasAvg', someAvg', projections', withAvg', nextId',
                           countCol', sumCol', lookup, castArgs)
  {
    var key := order[i];
    var oldFunctionCall := m[key];
    if IsDistinctAvg(oldFunctionCall) {
      var c, s, projection, w, n := RewriteOneAvg(m, order, key, withAvg, nextId0, nextId, lookup, castArgs);
      AvgFullStep(m, order, i, nextId0, hasAvg, someAvg, projections, withAvg, nextId, countCol, sumCol,
                  c, s, projection, w, n, lookup, castArgs);
      hasAvg', someAvg' := true, key;
      withAvg', nextId' := w, n;
      projections' := projections[key := projection];
      countCol', sumCol' := countCol[key := c], sumCol[key := s];
    } else {
      PlainFullStep(m, order, i, nextId0, hasAvg, someAvg, projections, withAvg, nextId, countCol, sumCol,
                    lookup, castArgs);
      hasAvg', someAvg', nextId', countCol', sumCol' := hasAvg, someAvg, nextId, countCol, sumCol;
      projections' := projections[key := ColumnRef(key)];
      withAvg' := withAvg[key := oldFunctionCall];
    }
  }

  /** What the second loop's invariant says once every key has been met. */
  lemma SecondPassEnd(m: map<ColumnId, CallOp>, order: seq<ColumnId>, nextId0: ColumnId,
                      hasAvg: bool, someAvg: ColumnId, projections: map<ColumnId, Scalar>,
                      withAvg: map<ColumnId, CallOp>, nextId: ColumnId,
                      countCol: map<ColumnId, ColumnId>, sumCol: map<ColumnId, ColumnId>,
                      lookup: (string, seq<TypeName>) -> Function, castArgs: CallOp -> seq<Scalar>)
    requires SecondPassFull(m, order, |order|, nextId0, hasAvg, someAvg, projections, withAvg, nextId,
                            countCol, sumCol, lookup, castArgs)
    ensures hasAvg <==> exists k :: k in m && IsDistinctAvg(m[k])
    ensures !hasAvg ==> nextId == nextId0
    ensures nextId0 <= nextId
    ensures projections.Keys == m.Keys
    ensures countCol.Keys == AvgKeys(m) && sumCol.Keys == AvgKeys(m)
    ensures KeptSoFar(m, projections, withAvg)
    ensures RewrittenSoFar(order, m, countCol, sumCol, projections, withAvg, nextId0, nextId, lookup, castArgs)
    ensures EntriesFrom(m, withAvg, nextId0, nextId)
    ensures OnlyAvgColumnsAdded(m, withAvg, countCol, sumCol)
    ensures NoFactoryOnReuse(m, countCol, sumCol, nextId0, nextId)
  {
    SecondPassKeys(order, m, projections, countCol);
    FreshFinal(m, order, withAvg, countCol, sumCol, nextId0, nextId);
    if !hasAvg {
      forall k | k in m ensures !IsDistinctAvg(m[k]) {
        var j :| 0 <= j < |order| && order[j] == k;
      }
    }
  }

  /**
   * The second loop of transform. Every distinct avg is projected to
   * divide(sum, count) over a count and a sum column; every other entry is
   * kept and projected to itself. Only count and sum columns are added, and
   * the factory is used only for those not already in `m`.
   */
  method RewriteAvgs(m: map<ColumnId, CallOp>, order: seq<ColumnId>, nextId0: ColumnId,
                     lookup: (string, seq<TypeName>) -> Function, castArgs: CallOp -> seq<Scalar>)
    returns (hasAvg: bool, projections: map<ColumnId, Scalar>, withAvg: map<ColumnId, CallOp>,
             nextId: ColumnId, ghost countCol: map<ColumnId, ColumnId>, ghost sumCol: map<ColumnId, ColumnId>)
    requires IsOrderOf(order, m)
    requires forall k :: k in m ==> k < nextId0
    requires forall k :: k in m && IsDistinctAvg(m[k]) ==> m[k].fn.Some?
    ensures hasAvg <==> exists k :: k in m && IsDistinctAvg(m[k])
    ensures !hasAvg ==> nextId == nextId0
    ensures nextId0 <= nextId
    ensures projections.Keys == m.Keys
    ensures countCol.Keys == AvgKeys(m) && sumCol.Keys == AvgKeys(m)
    ensures KeptSoFar(m, projections, withAvg)
    ensures RewrittenSoFar(order, m, countCol, sumCol, projections, withAvg, nextId0, nextId, lookup, castArgs)
    ensures EntriesFrom(m, withAvg, nextId0, nextId)
    ensures OnlyAvgColumnsAdded(m, withAvg, countCol, sumCol)
    ensures NoFactoryOnReuse(m, countCol, sumCol, nextId0, nextId)
  {
    hasAvg := false;
    projections := map[];
    withAvg := map[];
    nextId := nextId0;
    countCol := map[];
    sumCol := map[];
    ghost var someAvg: ColumnId := 0;
    var i := 0;
    while i < |order|
      invariant SecondPassFull(m, order, i, nextId0, hasAvg, someAvg, projections, withAvg, nextId,
                               countCol, sumCol, lookup, castArgs)
    {
      hasAvg, someAvg, projections, withAvg, nextId, countCol, sumCol :=
        RewriteEntry(m, order, i, nextId0, hasAvg, someAvg, projections, withAvg, nextId, countCol, sumCol,
                     lookup, castArgs);
      i := i + 1;
    }
    SecondPassEnd(m, order, nextId0, hasAvg, someAvg, projections, withAvg, nextId, countCol, sumCol,
                  lookup, castArgs);
  }

  /** The forEach over the grouping keys: each one is projected to itself, the rest is kept. */
  method ProjectGroupingKeys(projections: map<ColumnId, Scalar>, groupingKeys: seq<ColumnId>)
    returns (result: map<ColumnId, Scalar>)
    ensures forall k :: k in result <==> k in projections || k in groupingKeys
    ensures forall k :: k in groupingKeys ==> result[k] == ColumnRef(k)
    ensures forall k :: k in projections && k !in groupingKeys ==> result[k] == projections[k]
  {
    result := projections;
    var j := 0;
    while j < |groupingKeys|
      invariant 0 <= j <= |groupingKeys|
      invariant forall k :: k in result <==> k in projections || k in groupingKeys[..j]
      invariant forall k :: k in groupingKeys[..j] ==> result[k] == ColumnRef(k)
      invariant forall k :: k in projections && k !in groupingKeys[..j] ==> result[k] == projections[k]
    {
      var c := groupingKeys[j];
      assert groupingKeys[..j + 1] == groupingKeys[..j] + [c];
      result := result[c := ColumnRef(c)];
      j := j + 1;
    }
    assert groupingKeys[..j] == groupingKeys;
  }

  predicate HasDistinctAvg(aggs: map<ColumnId, CallOp>)
  {
    exists k :: k in aggs && IsDistinctAvg(aggs[k])
  }

  /**
   * The plan transform returns when there is a distinct avg: a projection
   * over a GLOBAL aggregation of the same input. `m` is the map after the
   * first pass. Grouping keys and non-avg outputs are projected to
   * themselves, each avg output to divide(sum, count); the aggregation keeps
   * every non-avg output, adds the count and sum columns and drops the avg.
   */
  ghost predicate AvgPlan(m: map<ColumnId, CallOp>, groupingKeys: seq<ColumnId>, inputs: seq<Plan>,
                          order: seq<ColumnId>, plan: Plan,
                    countCol: map<ColumnId, ColumnId>, sumCol: map<ColumnId, ColumnId>,
                    lo: ColumnId, hi: ColumnId,
                    lookup: (string, seq<TypeName>) -> Function, castArgs: CallOp -> seq<Scalar>)
  {
    && plan.Project? && |plan.inputs| == 1 && plan.inputs[0].Aggregate?
    && var agg := plan.inputs[0];
       var projections := plan.projections;
       var withAvg := agg.op.aggregations;
       && agg.op.aggType == Global && agg.op.groupingKeys == groupingKeys && agg.inputs == inputs
       && (forall k :: k in projections <==> k in m || k in groupingKeys)
       && (forall k :: k in groupingKeys ==> projections[k] == ColumnRef(k))
       && (forall k :: k in m && !IsDistinctAvg(m[k]) ==> k in withAvg && withAvg[k] == m[k])
       && (forall k :: k in m && !IsDistinctAvg(m[k]) && k !in groupingKeys ==> projections[k] == ColumnRef(k))
       && (forall k :: k in m && IsDistinctAvg(m[k]) ==> k in countCol && k in sumCol && k !in withAvg)
       && (forall k :: k in m && IsDistinctAvg(m[k]) && k !in groupingKeys ==>
             k in countCol && k in sumCol &&
             AvgRewritten(order, m, k, countCol[k], sumCol[k], projections[k], withAvg, lo, hi, lookup, castArgs))
       && EntriesFrom(m, withAvg, lo, hi)
  }

  /**
   * What the second pass adds to the aggregation of such a plan: only the
   * count and sum columns of the avgs, and an id only for each of those not
   * already in `m`.
   */
  ghost predicate AvgPlanAdds(m: map<ColumnId, CallOp>, plan: Plan,
                              countCol: map<ColumnId, ColumnId>, sumCol: map<ColumnId, ColumnId>,
                              lo: ColumnId, hi: ColumnId)
  {
    && plan.Project? && |plan.inputs| == 1 && plan.inputs[0].Aggregate?
    && (forall k :: k in countCol ==> k in m && IsDistinctAvg(m[k]))
    && EntriesFrom(m, plan.inputs[0].op.aggregations, lo, hi)
    && OnlyAvgColumnsAdded(m, plan.inputs[0].op.aggregations, countCol, sumCol)
    && NoFactoryOnReuse(m, countCol, sumCol, lo, hi)
  }

  /**
   * transform: the first pass rewrites distinct count and sum; when a
   * distinct avg is present the second pass turns it into a projection.
   * Exactly one alternative is returned.
   */
  method Transform(agg: AggregationOp, inputs: seq<Plan>, order: seq<ColumnId>, nextId0: ColumnId,
                   lookup: (string, seq<TypeName>) -> Function, castArgs: CallOp -> seq<Scalar>)
    returns (result: seq<Plan>, nextId: ColumnId,
             ghost countCol: map<ColumnId, ColumnId>, ghost sumCol: map<ColumnId, ColumnId>)
    requires IsOrderOf(order, agg.aggregations)
    requires Resolved(agg.aggregations)
    requires forall k :: k in agg.aggregations ==> k < nextId0
    ensures |result| == 1
    ensures nextId0 <= nextId
    ensures !HasDistinctAvg(agg.aggregations) ==>
      && nextId == nextId0
      && result[0] == Aggregate(AggregationOp(Global, agg.groupingKeys,
                                              FirstPassMap(agg.aggregations, lookup, castArgs)), inputs)
    ensures HasDistinctAvg(agg.aggregations) ==>
      && AvgPlan(FirstPassMap(agg.aggregations, lookup, castArgs), agg.groupingKeys, inputs, order, result[0],
                 countCol, sumCol, nextId0, nextId, lookup, castArgs)
      && AvgPlanAdds(FirstPassMap(agg.aggregations, lookup, castArgs), result[0], countCol, sumCol, nextId0, nextId)
  {
    var newAggMap := RewriteDistinctCalls(agg.aggregations, order, lookup, castArgs);
    FirstPassMapProperties(agg.aggregations, lookup, castArgs);
    var hasAvg, projections, withAvg;
    hasAvg, projections, withAvg, nextId, countCol, sumCol := RewriteAvgs(newAggMap, order, nextId0, lookup, castArgs);
    if hasAvg {
      var aggOpt := Aggregate(AggregationOp(Global, agg.groupingKeys, withAvg), inputs);
      var allProjections := ProjectGroupingKeys(projections, agg.groupingKeys);
      result := [Project(allProjections, [aggOpt])];
      AvgPlanHolds(newAggMap, agg.groupingKeys, inputs, order, projections, allProjections, withAvg,
                   countCol, sumCol, nextId0, nextId, lookup, castArgs);
    } else {
      result := [Aggregate(AggregationOp(Global, agg.groupingKeys, newAggMap), inputs)];
    }
  }

  lemma AvgPlanHolds(m: map<ColumnId, CallOp>, groupingKeys: seq<ColumnId>, inputs: seq<Plan>,
                     order: seq<ColumnId>, projections: map<ColumnId, Scalar>,
                     allProjections: map<ColumnId, Scalar>, withAvg: map<ColumnId, CallOp>,
                     countCol: map<ColumnId, ColumnId>, sumCol: map<ColumnId, ColumnId>,
                     lo: ColumnId, hi: ColumnId,
                     lookup: (string, seq<TypeName>) -> Function, castArgs: CallOp -> seq<Scalar>)
    requires forall k :: k in m ==> k < lo
    requires projections.Keys == m.Keys
    requires countCol.Keys == AvgKeys(m) && sumCol.Keys == AvgKeys(m)
    requires KeptSoFar(m, projections, withAvg)
    requires RewrittenSoFar(order, m, countCol, sumCol, projections, withAvg, lo, hi, lookup, castArgs)
    requires EntriesFrom(m, withAvg, lo, hi)
    requires OnlyAvgColumnsAdded(m, withAvg, countCol, sumCol)
    requires NoFactoryOnReuse(m, countCol, sumCol, lo, hi)
    requires forall k :: k in allProjections <==> k in projections || k in groupingKeys
    requires forall k :: k in groupingKeys ==> allProjections[k] == ColumnRef(k)
    requires forall k :: k in projections && k !in groupingKeys ==> allProjections[k] == projections[k]
    ensures AvgPlan(m, groupingKeys, inputs, order,
                    Project(allProjections, [Aggregate(AggregationOp(Global, groupingKeys, withAvg), inputs)]),
                    countCol, sumCol, lo, hi, lookup, castArgs)
    ensures AvgPlanAdds(m, Project(allProjections, [Aggregate(AggregationOp(Global, groupingKeys, withAvg), inputs)]),
                        countCol, sumCol, lo, hi)
  {
    forall k | k in m && IsDistinctAvg(m[k]) ensures k in countCol && k !in withAvg {
      assert k in AvgKeys(m);
    }
    forall k | k in countCol ensures k in m && IsDistinctAvg(m[k]) {
      assert k in AvgKeys(m);
    }
  }

  /** In iteration order the first match is unique. */
  lemma FirstMatchUnique(order: seq<ColumnId>, m: map<ColumnId, CallOp>, call: CallOp, c: ColumnId, i0: nat)
    requires IsOrderOf(order, m)
    requires i0 < |order| && m[order[i0]] == call
    requires forall j :: 0 <= j < i0 ==> m[order[j]] != call
    requires IsFirstMatch(order, m, call, c)
    ensures c == order[i0]
  {
    var i :| 0 <= i < |order| && order[i] == c && forall j :: 0 <= j < i ==> order[j] in m && m[order[j]] != call;
    if i != i0 {
      assert false;
    }
  }

  function ExampleCalls(v: Scalar, argType: TypeName, avgType: TypeName): map<ColumnId, CallOp>
  {
    map[1 := CallOp(COUNT, "BIGINT", [v], Some(Function(COUNT, [argType], "BIGINT")), true),
        2 := CallOp(AVG, avgType, [v], Some(Function(AVG, [argType], avgType)), true),
        3 := CallOp(SUM, argType, [v], Some(Function(SUM, [argType], argType)), true)]
  }

  /** The first pass on the example: count and sum become the multi-distinct calls the avg will build. */
  lemma ExampleFirstPass(v: Scalar, argType: TypeName, avgType: TypeName,
                         lookup: (string, seq<TypeName>) -> Function, castArgs: CallOp -> seq<Scalar>)
    ensures Resolved(ExampleCalls(v, argType, avgType))
    ensures var aggs := ExampleCalls(v, argType, avgType);
      var avg := aggs[2];
      && IsDistinctAvg(avg) && HasDistinctAvg(aggs)
      && FirstPassMap(aggs, lookup, castArgs) ==
         map[1 := BuildMultiCountDistinct(avg, lookup, castArgs), 2 := avg,
             3 := BuildMultiSumDistinct(avg, lookup, castArgs)]
  {
    var aggs := ExampleCalls(v, argType, avgType);
    EqualsIgnoreCaseExamples();
    assert EqualsIgnoreCase(aggs[1].fnName, COUNT) && EqualsIgnoreCase(aggs[3].fnName, SUM);
    assert !EqualsIgnoreCase(aggs[2].fnName, COUNT) && !EqualsIgnoreCase(aggs[2].fnName, SUM);
    assert IsDistinctAvg(aggs[2]);
  }

  /** What AvgPlan says about the example after its first pass. */
  lemma ExampleSecondPass(avg: CallOp, plan: Plan, countCol: map<ColumnId, ColumnId>, sumCol: map<ColumnId, ColumnId>,
                          lo: ColumnId, hi: ColumnId,
                          lookup: (string, seq<TypeName>) -> Function, castArgs: CallOp -> seq<Scalar>)
    requires IsDistinctAvg(avg) && avg.fn.Some?
    requires AvgPlan(map[1 := BuildMultiCountDistinct(avg, lookup, castArgs), 2 := avg,
                         3 := BuildMultiSumDistinct(avg, lookup, castArgs)],
                     [], [Leaf(0)], [1, 2, 3], plan, countCol, sumCol, lo, hi, lookup, castArgs)
    ensures plan.Project? && |plan.inputs| == 1 && plan.inputs[0].Aggregate?
    ensures plan.projections == map[1 := ColumnRef(1), 3 := ColumnRef(3), 2 := Call(DivideCall(avg, 3, 1, castArgs))]
    ensures var aggregations := plan.inputs[0].op.aggregations;
      && 1 in aggregations && aggregations[1] == BuildMultiCountDistinct(avg, lookup, castArgs)
      && 3 in aggregations && aggregations[3] == BuildMultiSumDistinct(avg, lookup, castArgs)
      && 2 !in aggregations
    ensures 2 in countCol && countCol[2] == 1 && 2 in sumCol && sumCol[2] == 3
  {
    var multiCount := BuildMultiCountDistinct(avg, lookup, castArgs);
    var multiSum := BuildMultiSumDistinct(avg, lookup, castArgs);
    var m := map[1 := multiCount, 2 := avg, 3 := multiSum];
    CountAndSumDiffer(avg, lookup, castArgs);
    BuildMultiShape(MULTI_DISTINCT_COUNT, avg, lookup, castArgs);
    BuildMultiShape(MULTI_DISTINCT_SUM, avg, lookup, castArgs);
    assert !IsDistinctAvg(m[1]) && !IsDistinctAvg(m[3]) && IsDistinctAvg(m[2]);
    var withAvg := plan.inputs[0].op.aggregations;
    assert AvgRewritten([1, 2, 3], m, 2, countCol[2], sumCol[2], plan.projections[2], withAvg, lo, hi, lookup, castArgs);
    FirstMatchUnique([1, 2, 3], m, multiCount, countCol[2], 0);
    FirstMatchUnique([1, 2, 3], m, multiSum, sumCol[2], 2);
    var projections := plan.projections;
    forall k ensures k in projections <==> k in {1, 2, 3} {
      assert k in projections <==> k in m;
    }
    assert projections[1] == ColumnRef(1) && projections[3] == ColumnRef(3);
    assert projections[2] == Call(DivideCall(avg, 3, 1, castArgs));
  }

  /** The example's second pass adds no column and takes no id: the aggregation holds the two calls only. */
  lemma ExampleAdds(avg: CallOp, plan: Plan, countCol: map<ColumnId, ColumnId>, sumCol: map<ColumnId, ColumnId>,
                    lo: ColumnId, hi: ColumnId,
                    lookup: (string, seq<TypeName>) -> Function, castArgs: CallOp -> seq<Scalar>)
    requires IsDistinctAvg(avg) && avg.fn.Some?
    requires AvgPlanAdds(map[1 := BuildMultiCountDistinct(avg, lookup, castArgs), 2 := avg,
                             3 := BuildMultiSumDistinct(avg, lookup, castArgs)],
                         plan, countCol, sumCol, lo, hi)
    requires 2 in countCol && countCol[2] == 1 && 2 in sumCol && sumCol[2] == 3
    requires var aggregations := plan.inputs[0].op.aggregations;
      1 in aggregations && 3 in aggregations && 2 !in aggregations
    ensures hi == lo
    ensures plan.inputs[0].op.aggregations.Keys == {1, 3}
  {
    var m := map[1 := BuildMultiCountDistinct(avg, lookup, castArgs), 2 := avg,
                 3 := BuildMultiSumDistinct(avg, lookup, castArgs)];
    BuildMultiShape(MULTI_DISTINCT_COUNT, avg, lookup, castArgs);
    BuildMultiShape(MULTI_DISTINCT_SUM, avg, lookup, castArgs);
    ExampleNoFreshColumn(m, plan.inputs[0].op.aggregations, countCol, sumCol, lo, hi);
  }

  /** The example's avg found both its columns, so the aggregation holds only entries of `m`. */
  lemma ExampleNoFreshColumn(m: map<ColumnId, CallOp>, withAvg: map<ColumnId, CallOp>,
                             countCol: map<ColumnId, ColumnId>, sumCol: map<ColumnId, ColumnId>,
                             lo: ColumnId, hi: ColumnId)
    requires m.Keys == {1, 2, 3} && IsDistinctAvg(m[2]) && !IsDistinctAvg(m[1]) && !IsDistinctAvg(m[3])
    requires forall k :: k in countCol ==> k in m && IsDistinctAvg(m[k])
    requires 2 in countCol && countCol[2] == 1 && 2 in sumCol && sumCol[2] == 3
    requires 1 in withAvg && 3 in withAvg && 2 !in withAvg
    requires EntriesFrom(m, withAvg, lo, hi)
    requires NoFactoryOnReuse(m, countCol, sumCol, lo, hi)
    ensures hi == lo
    ensures withAvg.Keys == {1, 3}
  {
    forall k | k in countCol ensures countCol[k] in m && k in sumCol && sumCol[k] in m {
      assert k == 2;
    }
    forall c ensures c in withAvg.Keys <==> c in {1, 3} {
    }
  }

  /**
   * The example of the second loop's comment: count(distinct v), avg(distinct v)
   * and sum(distinct v) side by side. The avg reuses the multi_distinct_count
   * and multi_distinct_sum outputs of the other two and is itself dropped
   * from the aggregation.
   */
  method SharedArgumentExample(v: Scalar, argType: TypeName, avgType: TypeName, nextId0: ColumnId,
                               lookup: (string, seq<TypeName>) -> Function, castArgs: CallOp -> seq<Scalar>)
    returns (result: seq<Plan>, nextId: ColumnId)
    requires nextId0 > 3
    ensures |result| == 1 && result[0].Project? && |result[0].inputs| == 1 && result[0].inputs[0].Aggregate?
    ensures var avg := ExampleCalls(v, argType, avgType)[2];
      result[0].projections ==
        map[1 := ColumnRef(1), 3 := ColumnRef(3), 2 := Call(DivideCall(avg, 3, 1, castArgs))]
    ensures var avg := ExampleCalls(v, argType, avgType)[2];
      var aggregations := result[0].inputs[0].op.aggregations;
      && 1 in aggregations && aggregations[1] == BuildMultiCountDistinct(avg, lookup, castArgs)
      && 3 in aggregations && aggregations[3] == BuildMultiSumDistinct(avg, lookup, castArgs)
      && 2 !in aggregations
      && aggregations.Keys == {1, 3}
    ensures nextId == nextId0
  {
    var aggs := ExampleCalls(v, argType, avgType);
    ExampleFirstPass(v, argType, avgType, lookup, castArgs);
    ghost var countCol, sumCol;
    result, nextId, countCol, sumCol := Transform(AggregationOp(Local, [], aggs), [Leaf(0)], [1, 2, 3], nextId0, lookup, castArgs);
    ExampleSecondPass(aggs[2], result[0], countCol, sumCol, nextId0, nextId, lookup, castArgs);
    ExampleAdds(aggs[2], result[0], countCol, sumCol, nextId0, nextId, lookup, castArgs);
  }
}
