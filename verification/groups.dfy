/**
 A reference semantics for the evaluator: a formula as a tree of atoms and
 parenthesised groups, each with its digit run, and the mass of that tree
 computed by structural recursion. The evaluator's single pass with a stack
 agrees with it on every rendered tree.
 */
module Groups {
  import opened Chars
  import opened Tables
  import opened Tokenizer
  import opened Evaluator

  datatype Part =
    | Atom(symbol: string, digits: string)
    | Group(parts: seq<Part>, digits: string)

  predicate AllDigits(s: string) {
    forall k :: 0 <= k < |s| ==> IsDigit(s[k])
  }

  /** Atoms name elements of the table; every digit run is made of digits. */
  predicate WellFormed(p: Part)
    decreases p
  {
    match p
    case Atom(s, d) => AtomicWeight(s).Some? && AllDigits(d)
    case Group(ps, d) => AllWellFormed(ps) && AllDigits(d)
  }

  predicate AllWellFormed(ps: seq<Part>)
    decreases ps
  {
    ps == [] || (WellFormed(ps[0]) && AllWellFormed(ps[1..]))
  }

  /** The formula text of a part. */
  function Render(p: Part): string
    decreases p
  {
    match p
    case Atom(s, d) => s + d
    case Group(ps, d) => "(" + RenderAll(ps) + ")" + d
  }

  function RenderAll(ps: seq<Part>): string
    decreases ps
  {
    if ps == [] then "" else Render(ps[0]) + RenderAll(ps[1..])
  }

  /** Mass by structure: an atom weighs its element times its multiplier, a group its contents times its multiplier. */
  function Mass(p: Part, mult: Multiplier): real
    requires WellFormed(p)
    decreases p
  {
    match p
    case Atom(s, d) => ElementMass(s, d, mult)
    case Group(ps, d) => MassAll(ps, mult) * mult(d)
  }

  function MassAll(ps: seq<Part>, mult: Multiplier): real
    requires AllWellFormed(ps)
    decreases ps
  {
    if ps == [] then 0.0 else Mass(ps[0], mult) + MassAll(ps[1..], mult)
  }

  /** A rendered part starts with an upper-case letter or an opening parenthesis. */
  lemma {:induction false} RenderStart(p: Part)
    requires WellFormed(p)
    ensures |Render(p)| > 0
    ensures IsUpper(Render(p)[0]) || Render(p)[0] == '('
  {
    match p
    case Atom(s, d) =>
      assert Render(p)[0] == s[0];
    case Group(ps, d) =>
  }

  /** A rendered non-empty sequence of parts starts like its first part. */
  lemma {:induction false} RenderAllStart(ps: seq<Part>)
    requires AllWellFormed(ps) && RenderAll(ps) != []
    ensures IsUpper(RenderAll(ps)[0]) || RenderAll(ps)[0] == '('
  {
    RenderStart(ps[0]);
    assert RenderAll(ps) == Render(ps[0]) + RenderAll(ps[1..]);
  }

  /** A position where a symbol or digit run that ends just before it cannot continue. */
  predicate Boundary(f: string, j: nat) {
    j >= |f| || (!IsDigit(f[j]) && !IsLower(f[j]))
  }

  /** `f` holds `text` at position `i`. */
  predicate At(f: string, i: nat, text: string) {
    i + |text| <= |f| && f[i..i + |text|] == text
  }

  lemma {:induction false} AtChar(f: string, i: nat, text: string, k: nat)
    requires At(f, i, text) && k < |text|
    ensures f[i + k] == text[k]
  {
    assert f[i..i + |text|][k] == text[k];
  }

  lemma {:induction false} AtSplit(f: string, i: nat, a: string, b: string)
    requires At(f, i, a + b)
    ensures At(f, i, a) && At(f, i + |a|, b)
  {
    assert f[i..i + |a|] == (a + b)[..|a|];
    assert f[i + |a|..i + |a| + |b|] == (a + b)[|a|..];
  }

  /** The symbol the scan reads at `i` is `s` when `s` and a digit run stand there. */
  lemma {:induction false} SymbolAtAtom(f: string, s: string, d: string, i: nat)
    requires IsSymbol(s) && AllDigits(d)
    requires At(f, i, s + d) && Boundary(f, i + |s| + |d|)
    ensures i < |f| && SymbolAt(f, i) == s
  {
    AtChar(f, i, s + d, 0);
    if |s| == 2 {
      AtChar(f, i, s + d, 1);
      assert SymbolAt(f, i) == [s[0], s[1]];
    } else {
      if |d| > 0 {
        AtChar(f, i, s + d, 1);
      }
      assert SymbolAt(f, i) == [s[0]];
    }
  }

  lemma {:induction false} DigitRunAt(f: string, d: string, j: nat)
    requires AllDigits(d) && At(f, j, d) && Boundary(f, j + |d|)
    ensures DigitRunEnd(f, j) == j + |d|
  {
    forall k | j <= k < j + |d| ensures IsDigit(f[k]) {
      AtChar(f, j, d, k - j);
    }
    DigitRunEndIs(f, j, j + |d|);
  }

  /** The assumed element branch, with symbol, digit run and contribution read off the text. */
  lemma {:induction false} ElementStepIs(f: string, mult: Multiplier, st: State)
    requires st.i < |f| && AtomicWeight(SymbolAt(f, st.i)).Some?
    ensures ElementStep(f, mult, st)
              == Next(State(DigitRunEnd(f, st.i + |SymbolAt(f, st.i)|),
                            st.total + ElementMass(SymbolAt(f, st.i),
                                                   f[st.i + |SymbolAt(f, st.i)|..DigitRunEnd(f, st.i + |SymbolAt(f, st.i)|)],
                                                   mult),
                            st.stack))
  {
  }

  /** An atom rendered at `i` is read as one element step. */
  lemma {:induction false} AtomStep(f: string, mult: Multiplier, s: string, d: string, i: nat, t: real, stk: seq<real>)
    requires AtomicWeight(s).Some? && AllDigits(d)
    requires At(f, i, s + d) && Boundary(f, i + |s| + |d|)
    ensures i < |f|
    ensures StepAt(f, mult, State(i, t, stk)) == Next(State(i + |s| + |d|, t + ElementMass(s, d, mult), stk))
  {
    SymbolAtAtom(f, s, d, i);
    AtSplit(f, i, s, d);
    DigitRunAt(f, d, i + |s|);
    assert IsUpper(f[i]) by {
      AtChar(f, i, s + d, 0);
    }
    ElementStepIs(f, mult, State(i, t, stk));
  }

  /** The `)` branch closing a group whose digit run `d` stands right after it. */
  lemma {:induction false} GroupClose(f: string, mult: Multiplier, i: nat, d: string, total: real, parent: real, stk: seq<real>)
    requires i < |f| && f[i] == ')'
    requires AllDigits(d) && At(f, i + 1, d) && Boundary(f, i + 1 + |d|)
    ensures StepAt(f, mult, State(i, total, stk + [parent]))
              == Next(State(i + 1 + |d|, parent + total * mult(d), stk))
  {
    DigitRunAt(f, d, i + 1);
    assert Pop(stk + [parent]) == (parent, stk) by {
      assert (stk + [parent])[..|stk|] == stk;
    }
  }

  /**
   The outcome of the loop from `st`: `Run` under a second name and nothing more.
   The lemmas below relate runs through this name only to control unfolding, so that
   a proof unfolds the loop where it takes a step and nowhere else.
   */
  function Finish(f: string, mult: Multiplier, st: State): Outcome
    requires st.i <= |f|
  {
    Run(f, mult, st)
  }

  /** A step from `st` to `next` leaves the rest of the run unchanged. */
  lemma {:induction false} RunStep(f: string, mult: Multiplier, st: State, next: State)
    requires st.i < |f| && StepAt(f, mult, st) == Next(next)
    ensures Finish(f, mult, st) == Finish(f, mult, next)
  {
    assert Run(f, mult, st) == Continue(f, mult, st);
  }

  /** The `(` branch: the running total is suspended and a fresh one starts. */
  lemma {:induction false} OpenRun(f: string, mult: Multiplier, i: nat, t: real, stk: seq<real>)
    requires i < |f| && f[i] == '('
    ensures Finish(f, mult, State(i, t, stk)) == Finish(f, mult, State(i + 1, 0.0, stk + [t]))
  {
    RunStep(f, mult, State(i, t, stk), State(i + 1, 0.0, stk + [t]));
  }

  /** The `)` branch, as a step of the run. */
  lemma {:induction false} CloseRun(f: string, mult: Multiplier, j: nat, d: string, x: real, t: real, stk: seq<real>)
    requires j < |f| && f[j] == ')'
    requires AllDigits(d) && At(f, j + 1, d) && Boundary(f, j + 1 + |d|)
    ensures Finish(f, mult, State(j, x, stk + [t])) == Finish(f, mult, State(j + 1 + |d|, t + x * mult(d), stk))
  {
    GroupClose(f, mult, j, d, x, t, stk);
    RunStep(f, mult, State(j, x, stk + [t]), State(j + 1 + |d|, t + x * mult(d), stk));
  }

  /** Running over a rendered atom adds its element's contribution. */
  lemma {:induction false} AtomRun(f: string, mult: Multiplier, p: Part, i: nat, t: real, stk: seq<real>)
    requires p.Atom? && WellFormed(p)
    requires At(f, i, Render(p)) && Boundary(f, i + |Render(p)|)
    ensures Finish(f, mult, State(i, t, stk))
              == Finish(f, mult, State(i + |Render(p)|, t + Mass(p, mult), stk))
  {
    var s, d := p.symbol, p.digits;
    AtomStep(f, mult, s, d, i, t, stk);
    RunStep(f, mult, State(i, t, stk), State(i + |s| + |d|, t + ElementMass(s, d, mult), stk));
  }

  /** Where the pieces of a rendered group `(inner)d` stand in `f`. */
  lemma {:induction false} GroupLayout(f: string, i: nat, inner: string, d: string)
    requires At(f, i, "(" + inner + ")" + d)
    ensures f[i] == '(' && At(f, i + 1, inner)
    ensures f[i + 1 + |inner|] == ')' && Boundary(f, i + 1 + |inner|)
    ensures At(f, i + 1 + |inner| + 1, d)
  {
    AtSplit(f, i, "(" + inner + ")", d);
    AtSplit(f, i, "(" + inner, ")");
    AtSplit(f, i, "(", inner);
    AtChar(f, i, "(", 0);
    AtChar(f, i + 1 + |inner|, ")", 0);
  }

  /**
   Running over a rendered group `(inner)d`, given that the run over `inner`
   started from a fresh total ends with total `mass`.
   */
  lemma {:induction false} GroupRun(f: string, mult: Multiplier, n: nat, d: string, mass: real, i: nat, t: real, stk: seq<real>)
    requires i + 1 + n < |f| && f[i] == '(' && f[i + 1 + n] == ')'
    requires AllDigits(d) && At(f, i + 1 + n + 1, d) && Boundary(f, i + 1 + n + 1 + |d|)
    requires Finish(f, mult, State(i + 1, 0.0, stk + [t]))
               == Finish(f, mult, State(i + 1 + n, mass, stk + [t]))
    ensures Finish(f, mult, State(i, t, stk))
              == Finish(f, mult, State(i + 1 + n + 1 + |d|, t + mass * mult(d), stk))
  {
    OpenRun(f, mult, i, t, stk);
    CloseRun(f, mult, i + 1 + n, d, mass, t, stk);
  }

  /** Where the run over a rendered group ends, and with what total. */
  lemma {:induction false} GroupEnd(f: string, mult: Multiplier, p: Part, n: nat, m: real, i: nat, t: real, stk: seq<real>)
    requires p.Group? && WellFormed(p)
    requires n == |RenderAll(p.parts)| && m == MassAll(p.parts, mult)
    requires i + 1 + n + 1 + |p.digits| <= |f|
    ensures i + |Render(p)| <= |f|
    ensures Finish(f, mult, State(i + 1 + n + 1 + |p.digits|, t + m * mult(p.digits), stk))
              == Finish(f, mult, State(i + |Render(p)|, t + Mass(p, mult), stk))
  {
    assert Render(p) == "(" + RenderAll(p.parts) + ")" + p.digits;
    assert State(i + 1 + n + 1 + |p.digits|, t + m * mult(p.digits), stk)
        == State(i + |Render(p)|, t + Mass(p, mult), stk);
  }

  /** Running over a rendered group, given where its pieces stand and the run over its contents. */
  lemma {:induction false} GroupPartRun(f: string, mult: Multiplier, p: Part, n: nat, m: real, i: nat, t: real, stk: seq<real>)
    requires p.Group? && WellFormed(p)
    requires n == |RenderAll(p.parts)| && m == MassAll(p.parts, mult)
    requires i + 1 + n < |f| && f[i] == '(' && f[i + 1 + n] == ')'
    requires At(f, i + 1 + n + 1, p.digits) && Boundary(f, i + 1 + n + 1 + |p.digits|)
    requires Finish(f, mult, State(i + 1, 0.0, stk + [t])) == Finish(f, mult, State(i + 1 + n, m, stk + [t]))
    ensures Finish(f, mult, State(i, t, stk))
              == Finish(f, mult, State(i + |Render(p)|, t + Mass(p, mult), stk))
  {
    GroupRun(f, mult, n, p.digits, m, i, t, stk);
    GroupEnd(f, mult, p, n, m, i, t, stk);
  }

  /** Where the contents, the closing parenthesis and the digit run of a rendered group stand. */
  lemma {:induction false} GroupInner(f: string, p: Part, i: nat)
    requires p.Group? && At(f, i, Render(p)) && Boundary(f, i + |Render(p)|)
    ensures At(f, i + 1, RenderAll(p.parts)) && Boundary(f, i + 1 + |RenderAll(p.parts)|)
    ensures f[i] == '(' && f[i + 1 + |RenderAll(p.parts)|] == ')'
    ensures At(f, i + 1 + |RenderAll(p.parts)| + 1, p.digits)
    ensures Boundary(f, i + 1 + |RenderAll(p.parts)| + 1 + |p.digits|)
  {
    assert Render(p) == "(" + RenderAll(p.parts) + ")" + p.digits;
    assert i + |Render(p)| == i + 1 + |RenderAll(p.parts)| + 1 + |p.digits|;
    GroupLayout(f, i, RenderAll(p.parts), p.digits);
  }

  /** Running over one rendered part adds its mass and leaves index and stack just past it. */
  lemma {:induction false} RunPart(f: string, mult: Multiplier, p: Part, i: nat, t: real, stk: seq<real>)
    requires WellFormed(p)
    requires At(f, i, Render(p)) && Boundary(f, i + |Render(p)|)
    ensures Finish(f, mult, State(i, t, stk))
              == Finish(f, mult, State(i + |Render(p)|, t + Mass(p, mult), stk))
    decreases p, 0
  {
    if p.Atom? {
      AtomRun(f, mult, p, i, t, stk);
    } else {
      GroupInner(f, p, i);
      RunPartsFromZero(f, mult, p.parts, i + 1, stk + [t]);
      GroupPartRun(f, mult, p, |RenderAll(p.parts)|, MassAll(p.parts, mult), i, t, stk);
    }
  }

  /** Where the first part and the rest of a rendered sequence stand in `f`. */
  lemma {:induction false} PartsLayout(f: string, i: nat, ps: seq<Part>, head: string, tail: string)
    requires ps != [] && AllWellFormed(ps)
    requires head == Render(ps[0]) && tail == RenderAll(ps[1..])
    requires At(f, i, RenderAll(ps)) && Boundary(f, i + |RenderAll(ps)|)
    ensures At(f, i, head) && Boundary(f, i + |head|) && At(f, i + |head|, tail)
  {
    assert RenderAll(ps) == head + tail;
    AtSplit(f, i, head, tail);
    if tail == [] {
      assert i + |head| == i + |RenderAll(ps)|;
    } else {
      RenderAllStart(ps[1..]);
      AtChar(f, i + |head|, tail, 0);
      assert !IsDigit(f[i + |head|]) && !IsLower(f[i + |head|]);
    }
  }

  /** Running over a rendered sequence of parts adds their masses. */
  lemma {:induction false} RunParts(f: string, mult: Multiplier, ps: seq<Part>, i: nat, t: real, stk: seq<real>)
    requires AllWellFormed(ps)
    requires At(f, i, RenderAll(ps)) && Boundary(f, i + |RenderAll(ps)|)
    ensures Finish(f, mult, State(i, t, stk))
              == Finish(f, mult, State(i + |RenderAll(ps)|, t + MassAll(ps, mult), stk))
    decreases ps, 0
  {
    if ps == [] {
      assert State(i + |RenderAll(ps)|, t + MassAll(ps, mult), stk) == State(i, t, stk);
    } else {
      var m := |Render(ps[0])|;
      PartsLayout(f, i, ps, Render(ps[0]), RenderAll(ps[1..]));
      RunPart(f, mult, ps[0], i, t, stk);
      RunParts(f, mult, ps[1..], i + m, t + Mass(ps[0], mult), stk);
    }
  }

  /** The same, from the fresh total a `(` starts. */
  lemma {:induction false} RunPartsFromZero(f: string, mult: Multiplier, ps: seq<Part>, i: nat, stk: seq<real>)
    requires AllWellFormed(ps)
    requires At(f, i, RenderAll(ps)) && Boundary(f, i + |RenderAll(ps)|)
    ensures Finish(f, mult, State(i, 0.0, stk))
              == Finish(f, mult, State(i + |RenderAll(ps)|, MassAll(ps, mult), stk))
    decreases ps, 1
  {
    RunParts(f, mult, ps, i, 0.0, stk);
    assert 0.0 + MassAll(ps, mult) == MassAll(ps, mult);
  }

  /** The evaluator computes the structural mass of every well-formed formula tree. */
  lemma {:induction false} EvaluateRender(ps: seq<Part>, mult: Multiplier)
    requires AllWellFormed(ps)
    ensures Evaluate(RenderAll(ps), mult) == Done(State(|RenderAll(ps)|, MassAll(ps, mult), []))
  {
    var f := RenderAll(ps);
    assert At(f, 0, f);
    RunParts(f, mult, ps, 0, 0.0, []);
    assert Finish(f, mult, State(0, 0.0, [])) == Evaluate(f, mult);
  }

  // ---------------------------------------------------------------------------
  // Example
  // ---------------------------------------------------------------------------

  function GlucoseTree(): (ps: seq<Part>)
    ensures AllWellFormed(ps)
  {
    [Atom("C", "6"), Atom("H", "12"), Atom("O", "6")]
  }

  lemma {:induction false} GlucoseMass()
    ensures MassAll(GlucoseTree(), DecimalMultiplier) == 6.0 * 12.011 + 12.0 * 1.008 + 6.0 * 15.999
  {
    var ps := GlucoseTree();
    assert "12"[..1] == "1" && "1"[..0] == "" && "6"[..0] == "";
    assert Mass(ps[0], DecimalMultiplier) == 6.0 * 12.011;
    assert Mass(ps[1], DecimalMultiplier) == 12.0 * 1.008;
    assert Mass(ps[2], DecimalMultiplier) == 6.0 * 15.999;
    assert ps[1..][1..][1..] == [];
  }

  lemma {:induction false} GlucoseText(f: string)
    requires |f| == 7 && f[0] == 'C' && f[1] == '6' && f[2] == 'H' && f[3] == '1' && f[4] == '2'
    requires f[5] == 'O' && f[6] == '6'
    ensures f == RenderAll(GlucoseTree())
  {
    var ps := GlucoseTree();
    assert RenderAll(ps[1..][1..][1..]) == "";
    assert f == Render(ps[0]) + Render(ps[1]) + Render(ps[2]);
  }

  /** Glucose, C6H12O6, with decimal multipliers: six carbons, twelve hydrogens and six oxygens. */
  lemma {:induction false} ExampleGlucose(f: string)
    requires |f| == 7 && f[0] == 'C' && f[1] == '6' && f[2] == 'H' && f[3] == '1' && f[4] == '2'
    requires f[5] == 'O' && f[6] == '6'
    ensures MolarMass(f, DecimalMultiplier) == Some(6.0 * 12.011 + 12.0 * 1.008 + 6.0 * 15.999)
  {
    GlucoseText(f);
    EvaluateRender(GlucoseTree(), DecimalMultiplier);
    GlucoseMass();
  }
}
