/**
 `calculateMolarMass`: one left-to-right pass over a formula with a running
 `total` for the current group and a stack of suspended parent totals.

 The source breaks off in the middle of the `)` branch, after
 `total = (stack.pop() || 0) + total *`. The multiplier expression is therefore
 a parameter of the model, `mult`, applied to the digit run read after `)`.
 The branch for element symbols, the treatment of other characters and the
 returned value are not in the source either. They are modelled as ASSUMPTIONS:
 an upper-case letter starts a symbol (one more lower-case letter joins it), its
 digit run is read the same way, an unknown symbol stops the scan with
 `UnknownElement`, any other character is skipped, and the result is `total`.
 */
module Evaluator {
  import opened Chars
  import opened Tables
  import opened Tokenizer

  /** The loop variables: the index `i`, the running `total` and the `stack` of parent totals. */
  datatype State = State(i: nat, total: real, stack: seq<real>)

  datatype Error = UnknownElement(symbol: string)

  datatype StepResult = Next(st: State) | Stop(err: Error)

  datatype Outcome = Done(st: State) | Failed(err: Error)

  /** The value a digit run stands for when it multiplies a group (or, by assumption, an element). */
  type Multiplier = string -> real

  /** `while (/\d/.test(formula[i])) num += formula[i++]`: the end of the digit run starting at `j`. */
  function DigitRunEnd(f: string, j: nat): (r: nat)
    requires j <= |f|
    ensures j <= r <= |f|
    ensures forall k :: j <= k < r ==> IsDigit(f[k])
    ensures r == |f| || !IsDigit(f[r])
    decreases |f| - j
  {
    if j < |f| && IsDigit(f[j]) then DigitRunEnd(f, j + 1) else j
  }

  /** The digit run is determined by where it stops: there is exactly one maximal run. */
  lemma {:induction false} DigitRunEndIs(f: string, j: nat, n: nat)
    requires j <= n <= |f|
    requires forall k :: j <= k < n ==> IsDigit(f[k])
    requires n == |f| || !IsDigit(f[n])
    ensures DigitRunEnd(f, j) == n
    decreases n - j
  {
    if j < n {
      DigitRunEndIs(f, j + 1, n);
    }
  }

  /** `stack.pop() || 0`: the parent total, or 0 when no group is open, and the stack left behind. */
  function Pop(stack: seq<real>): (r: (real, seq<real>))
    ensures |stack| > 0 ==> r.1 + [r.0] == stack
    ensures |stack| == 0 ==> r == (0.0, [])
  {
    if |stack| > 0 then (stack[|stack| - 1], stack[..|stack| - 1]) else (0.0, [])
  }

  /** What an element with digit run `num` adds to the total: its weight times the multiplier. */
  function ElementMass(sym: string, num: string, mult: Multiplier): real
    requires AtomicWeight(sym).Some?
  {
    AtomicWeight(sym).value * mult(num)
  }

  /**
   Assumed element branch: the symbol at `i`, then its digit run; an unknown symbol
   stops the scan, a known one adds its weight times the multiplier of the run.
   */
  function ElementStep(f: string, mult: Multiplier, st: State): (r: StepResult)
    requires st.i < |f|
    ensures r.Stop? <==> AtomicWeight(SymbolAt(f, st.i)).None?
    ensures r.Stop? ==> r.err.symbol == SymbolAt(f, st.i)
    ensures r.Next? ==> st.i < r.st.i <= |f| && r.st.stack == st.stack
    ensures r.Next? ==> r.st.i == DigitRunEnd(f, st.i + |SymbolAt(f, st.i)|)
  {
    var sym := SymbolAt(f, st.i);
    var k := st.i + |sym|;
    var j := DigitRunEnd(f, k);
    if AtomicWeight(sym).None? then Stop(UnknownElement(sym))
    else Next(State(j, st.total + ElementMass(sym, f[k..j], mult), st.stack))
  }

  /** One iteration of the `while` loop. */
  function StepAt(f: string, mult: Multiplier, st: State): (r: StepResult)
    requires st.i < |f|
    ensures r.Next? ==> st.i < r.st.i <= |f|
    ensures f[st.i] == '(' ==> r == Next(State(st.i + 1, 0.0, st.stack + [st.total]))
    ensures f[st.i] == ')' ==>
              && r.Next?
              && r.st.i == DigitRunEnd(f, st.i + 1)
              && r.st.total == Pop(st.stack).0 + st.total * mult(f[st.i + 1..r.st.i])
              && r.st.stack == Pop(st.stack).1
    ensures f[st.i] != '(' && f[st.i] != ')' && r.Next? ==> r.st.stack == st.stack
    ensures r.Stop? ==> IsUpper(f[st.i]) && AtomicWeight(r.err.symbol).None?
    ensures r.Next? ==> forall k :: st.i < k < r.st.i ==> f[k] != '(' && f[k] != ')'
  {
    var c := f[st.i];
    if c == '(' then
      Next(State(st.i + 1, 0.0, st.stack + [st.total]))
    else if c == ')' then
      var j := DigitRunEnd(f, st.i + 1);
      var (parent, rest) := Pop(st.stack);
      Next(State(j, parent + st.total * mult(f[st.i + 1..j]), rest))
    else if IsUpper(c) then
      ElementStep(f, mult, st)
    else
      // assumed: anything else is skipped
      Next(State(st.i + 1, st.total, st.stack))
  }

  /** The loop from state `st` to the end of the formula or the first unknown element. */
  function Run(f: string, mult: Multiplier, st: State): (r: Outcome)
    requires st.i <= |f|
    ensures r.Done? ==> r.st.i == |f|
    ensures r.Failed? ==> AtomicWeight(r.err.symbol).None?
    decreases |f| - st.i, 1
  {
    if st.i == |f| then Done(st) else Continue(f, mult, st)
  }

  /** One iteration from `st`, then the rest of the loop. */
  function Continue(f: string, mult: Multiplier, st: State): (r: Outcome)
    requires st.i < |f|
    ensures r.Done? ==> r.st.i == |f|
    ensures r.Failed? ==> AtomicWeight(r.err.symbol).None?
    decreases |f| - st.i, 0
  {
    match StepAt(f, mult, st)
    case Stop(e) => Failed(e)
    case Next(s) => Run(f, mult, s)
  }

  const Start := State(0, 0.0, [])

  /**
   The whole loop from index 0, total 0 and an empty stack: it either reads the
   formula to its end or stops at a symbol the element table does not know.
   */
  function Evaluate(f: string, mult: Multiplier): (r: Outcome)
    ensures r.Done? ==> r.st.i == |f|
    ensures r.Failed? ==> AtomicWeight(r.err.symbol).None?
  {
    Run(f, mult, Start)
  }

  /** The molar mass, assuming the function ends with `return total`. */
  function MolarMass(f: string, mult: Multiplier): (r: Option<real>)
    ensures r.Some? <==> Evaluate(f, mult).Done?
    ensures r.Some? ==> r.value == Evaluate(f, mult).st.total
  {
    match Evaluate(f, mult)
    case Done(st) => Some(st.total)
    case Failed(_) => None
  }

  /**
   An assumed multiplier: no digits mean 1, otherwise the decimal value of the
   digits. The source text breaks off before the multiplier.
   */
  function DecimalMultiplier(num: string): (r: real)
    ensures num == [] ==> r == 1.0
    ensures (forall k :: 0 <= k < |num| ==> IsDigit(num[k])) ==> r >= 0.0
  {
    if num == [] then 1.0 else DecimalValue(num) as real
  }

  function DecimalValue(num: string): (n: nat)
    decreases |num|
  {
    if num == [] then 0
    else
      var d := num[|num| - 1] as int - '0' as int;
      DecimalValue(num[..|num| - 1]) * 10 + (if 0 <= d <= 9 then d else 0)
  }

  // ---------------------------------------------------------------------------
  // Termination within |f| iterations
  // ---------------------------------------------------------------------------

  /** The number of loop iterations from `st` on. */
  function Steps(f: string, mult: Multiplier, st: State): (n: nat)
    requires st.i <= |f|
    ensures n <= |f| - st.i
    decreases |f| - st.i
  {
    if st.i == |f| then 0
    else
      match StepAt(f, mult, st)
      case Stop(_) => 1
      case Next(s) => 1 + Steps(f, mult, s)
  }

  // ---------------------------------------------------------------------------
  // Stack depth against a reference count of parentheses
  // ---------------------------------------------------------------------------

  /** The nesting depth after reading `p`: `(` opens a group, `)` closes one if any is open. */
  function Depth(p: string): nat
    decreases |p|
  {
    if p == [] then 0
    else
      var d := Depth(p[..|p| - 1]);
      var c := p[|p| - 1];
      if c == '(' then d + 1
      else if c == ')' then (if d == 0 then 0 else d - 1)
      else d
  }

  function Count(p: string, c: char): nat
    decreases |p|
  {
    if p == [] then 0 else Count(p[..|p| - 1], c) + (if p[|p| - 1] == c then 1 else 0)
  }

  predicate NoParens(q: string) {
    forall k :: 0 <= k < |q| ==> q[k] != '(' && q[k] != ')'
  }

  /** Characters other than parentheses leave the depth alone. */
  lemma {:induction false} DepthSkips(p: string, q: string)
    requires NoParens(q)
    ensures Depth(p + q) == Depth(p)
    decreases |q|
  {
    if q != [] {
      var q' := q[..|q| - 1];
      assert (p + q)[..|p + q| - 1] == p + q';
      DepthSkips(p, q');
    } else {
      assert p + q == p;
    }
  }

  lemma DepthAfter(f: string, i: nat, j: nat)
    requires i <= j <= |f|
    requires NoParens(f[i..j])
    ensures Depth(f[..j]) == Depth(f[..i])
  {
    assert f[..j] == f[..i] + f[i..j];
    DepthSkips(f[..i], f[i..j]);
  }

  /** Each iteration keeps the stack as deep as the reference depth of what it has read. */
  lemma StepDepth(f: string, mult: Multiplier, st: State)
    requires st.i < |f|
    requires |st.stack| == Depth(f[..st.i])
    ensures StepAt(f, mult, st).Next? ==>
              |StepAt(f, mult, st).st.stack| == Depth(f[..StepAt(f, mult, st).st.i])
  {
    var r := StepAt(f, mult, st);
    if r.Next? {
      var i, j := st.i, r.st.i;
      assert f[..i + 1][..i] == f[..i];
      if f[i] == '(' || f[i] == ')' {
        DepthAfter(f, i + 1, j);
      } else {
        DepthAfter(f, i, j);
      }
    }
  }

  /** At the end of a successful run the stack holds one entry per group still open. */
  lemma {:induction false} RunDepth(f: string, mult: Multiplier, st: State)
    requires st.i <= |f|
    requires |st.stack| == Depth(f[..st.i])
    ensures Run(f, mult, st).Done? ==> |Run(f, mult, st).st.stack| == Depth(f)
    decreases |f| - st.i
  {
    if st.i == |f| {
      assert f[..st.i] == f;
    } else {
      StepDepth(f, mult, st);
      match StepAt(f, mult, st)
      case Stop(_) =>
      case Next(s) => RunDepth(f, mult, s);
    }
  }

  lemma EvaluateDepth(f: string, mult: Multiplier)
    ensures Evaluate(f, mult).Done? ==> |Evaluate(f, mult).st.stack| == Depth(f)
  {
    assert f[..0] == [];
    RunDepth(f, mult, Start);
  }

  /** Every prefix of `p` has at least as many `(` as `)`. */
  predicate NeverOverClosed(p: string) {
    forall n :: 0 <= n <= |p| ==> Count(p[..n], ')') <= Count(p[..n], '(')
  }

  /**
   While no `)` arrives with an empty stack, the depth is the number of `(` minus the
   number of `)`; otherwise it is never below that difference.
   */
  lemma {:induction false} DepthCounts(p: string)
    ensures Depth(p) >= Count(p, '(') - Count(p, ')')
    ensures NeverOverClosed(p) ==> Depth(p) == Count(p, '(') - Count(p, ')')
    decreases |p|
  {
    if p != [] {
      var q := p[..|p| - 1];
      DepthCounts(q);
      if NeverOverClosed(p) {
        forall n | 0 <= n <= |q| ensures Count(q[..n], ')') <= Count(q[..n], '(') {
          assert q[..n] == p[..n];
        }
        assert p[..|p|] == p;
      }
    }
  }

  // ---------------------------------------------------------------------------
  // Examples
  // ---------------------------------------------------------------------------

  /** An unknown two-letter symbol stops the scan, whatever the multiplier. */
  lemma ExampleUnknownElement(f: string, mult: Multiplier)
    requires |f| == 3 && f[0] == 'X' && f[1] == 'x' && f[2] == '2'
    ensures Evaluate(f, mult) == Failed(UnknownElement("Xx"))
  {
    assert SymbolAt(f, 0) == "Xx";
    assert AtomicWeight("Xx").None?;
    assert Run(f, mult, Start) == Continue(f, mult, Start);
  }
}
