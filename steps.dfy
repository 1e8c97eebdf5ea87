/** The engine's state as a value, and what each phase does to it. Every
    phase is split into a submit half, which produces the points to
    evaluate, and an update half, which consumes their costs; the two
    phase fields `nextSubmit` and `nextUpdate` name the half to run next. */
module Steps {
  import opened Wrappers
  import opened Vectors
  import opened Sorting
  import opened Results
  import opened Simplex

  datatype SubmitPhase =
    | SubmitInitialize
    | NewIter
    | SubmitExpansion
    | SubmitContraction
    | SubmitInsideContraction
    | SubmitShrink

  datatype UpdatePhase =
    | UpdateInitialize
    | Finalize
    | ChooseStep
    | UpdateExpansion
    | UpdateContraction
    | UpdateInsideContraction
    | UpdateShrink

  /** The update half each submit half is declared to hand over to; None
      where the body sets that field itself. */
  function DeclaredUpdate(p: SubmitPhase): (r: Option<UpdatePhase>)
  {
    match p
    case SubmitInitialize => Some(UpdateInitialize)
    case NewIter => None
    case SubmitExpansion => Some(UpdateExpansion)
    case SubmitContraction => Some(UpdateContraction)
    case SubmitInsideContraction => Some(UpdateInsideContraction)
    case SubmitShrink => Some(UpdateShrink)
  }

  /** The submit half each update half is declared to hand over to; None
      where the body sets that field itself, or nothing follows. */
  function DeclaredSubmit(p: UpdatePhase): (r: Option<SubmitPhase>)
  {
    match p
    case UpdateInitialize => Some(NewIter)
    case Finalize => None
    case ChooseStep => None
    case UpdateExpansion => Some(NewIter)
    case UpdateContraction => None
    case UpdateInsideContraction => None
    case UpdateShrink => Some(NewIter)
  }

  /** The submit half that follows each outcome of the reflection. */
  function AfterReflection(s: Step): (r: SubmitPhase)
  {
    match s
    case Expand => SubmitExpansion
    case AcceptReflection => NewIter
    case Contract => SubmitContraction
    case ContractInside => SubmitInsideContraction
  }

  /** Everything the engine keeps between calls. A None cost is a vertex
      whose cost is not known (NaN in the engine). `pending` (the points
      handed out by the last submit half) and `history` (every cost consumed
      so far) are bookkeeping for the proofs only. */
  datatype EngineState = EngineState(
    dim: nat,
    xtol: real,
    ftol: real,
    maxIter: int,
    simplex: seq<Vec>,
    funSimplex: seq<Option<real>>,
    numIter: int,
    extraPoints: map<string, Evaluation>,
    nextSubmit: Option<SubmitPhase>,
    nextUpdate: Option<UpdatePhase>,
    finished: bool,
    pending: seq<Vec>,
    history: seq<real>)

  /** dim+1 vertices of dim >= 1 coordinates, one cost slot per vertex. */
  predicate Shaped(s: EngineState)
  {
    && s.dim >= 1
    && |s.simplex| == s.dim + 1
    && |s.funSimplex| == s.dim + 1
    && Rectangular(s.simplex, s.dim)
  }

  /** A fresh run on the given vertices: no costs, first half
      `submit_initialize`. */
  function Initial(rows: seq<Vec>, xtol: real, ftol: real, numIter: int, maxIter: int): (s: EngineState)
    requires WellShaped(rows)
    ensures Shaped(s)
  {
    EngineState(|rows| - 1, xtol, ftol, maxIter, rows, seq(|rows|, i => None), numIter, map[],
      Some(SubmitInitialize), None, false, [], [])
  }

  /** The effect of the `submit_method` decoration: no submit half is due,
      the declared update half is, and nothing else changes. */
  function EnterSubmit(s: EngineState, p: SubmitPhase): (r: EngineState)
    ensures r.nextSubmit == None && r.nextUpdate == DeclaredUpdate(p)
    ensures r == s.(nextSubmit := r.nextSubmit, nextUpdate := r.nextUpdate)
  {
    s.(nextSubmit := None, nextUpdate := DeclaredUpdate(p))
  }

  /** The effect of the `update_method` decoration: the declared submit
      half is due, no update half is, the consumed costs are recorded in the
      history, and nothing else changes. */
  function EnterUpdate(s: EngineState, p: UpdatePhase, consumed: seq<real>): (r: EngineState)
    ensures r.nextSubmit == DeclaredSubmit(p) && r.nextUpdate == None
    ensures r.history == s.history + consumed
    ensures r == s.(nextSubmit := r.nextSubmit, nextUpdate := r.nextUpdate, history := r.history)
  {
    s.(nextSubmit := DeclaredSubmit(p), nextUpdate := None, history := s.history + consumed)
  }

  /** Replaces the worst vertex and its cost (`_update_last`). */
  function UpdateLast(s: EngineState, x: Vec, f: real): (r: EngineState)
    requires Shaped(s) && |x| == s.dim
    ensures Shaped(r)
  {
    s.(simplex := s.simplex[s.dim := x], funSimplex := s.funSimplex[s.dim := Some(f)])
  }

  function AfterSubmitInitialize(s: EngineState): (r: EngineState)
    ensures r.nextSubmit == None && r.nextUpdate == Some(UpdateInitialize) && r.finished == s.finished
  {
    EnterSubmit(s, SubmitInitialize).(pending := s.simplex)
  }

  /** `update_initialize`: the costs, in submission order, become the
      vertex costs. */
  function AfterUpdateInitialize(s: EngineState, values: seq<real>): (r: EngineState)
    ensures r.nextSubmit == Some(NewIter) && r.nextUpdate == None && r.finished == s.finished
  {
    EnterUpdate(s, UpdateInitialize, values).(funSimplex := Somes(values))
  }

  /** `do_sort`: vertices and costs reordered by the argsort of the costs. */
  function Sort(s: EngineState): (r: EngineState)
    requires Shaped(s) && AllKnown(s.funSimplex)
    ensures Shaped(r) && AllKnown(r.funSimplex)
  {
    var c := Known(s.funSimplex);
    var p := Argsort(c);
    s.(simplex := Take(s.simplex, p), funSimplex := Somes(Take(c, p)))
  }

  /** `check_finished`: `finished` becomes the convergence test (see
      Simplex.ConvergedIff) and nothing else changes. */
  function CheckFinished(s: EngineState): (r: EngineState)
    requires Shaped(s) && AllKnown(s.funSimplex)
    ensures r == s.(finished := r.finished)
  {
    s.(finished := Converged(s.simplex, Known(s.funSimplex), s.xtol, s.ftol))
  }

  /** The second half of `new_iter`, after the convergence test: either
      stop with nothing to evaluate or count an iteration and hand out the
      reflected point. */
  function Proceed(t: EngineState): (r: EngineState)
    requires Shaped(t)
    ensures r.nextUpdate == Some(if r.finished then Finalize else ChooseStep)
  {
    if t.finished then
      t.(nextUpdate := Some(Finalize), pending := [])
    else
      t.(numIter := t.numIter + 1, nextUpdate := Some(ChooseStep),
         pending := [Reflection(Centroid(t.simplex, t.dim), t.simplex[t.dim])])
  }

  /** `new_iter`: sort, test for convergence, then proceed. */
  function AfterNewIter(s: EngineState): (r: EngineState)
    requires Shaped(s) && AllKnown(s.funSimplex)
    ensures r.nextSubmit == None && r.nextUpdate == Some(if r.finished then Finalize else ChooseStep)
  {
    Proceed(CheckFinished(Sort(EnterSubmit(s, NewIter))))
  }

  /** `finalize`: nothing was handed out, nothing is consumed. */
  function AfterFinalize(s: EngineState): (r: EngineState)
    ensures r.nextSubmit == None && r.nextUpdate == None && r.finished == s.finished
  {
    EnterUpdate(s, Finalize, [])
  }

  /** The four-way choice of `choose_step` on the cost vector (best first,
      worst last): expand if the reflected cost beats the best vertex,
      accept the reflected point if it beats the second-worst, contract
      outside if it beats only the worst, and contract inside otherwise. */
  function ChooseFrom(t: EngineState, e: Evaluation): (r: EngineState)
    requires Shaped(t) && AllKnown(t.funSimplex) && |e.x| == t.dim
    ensures r.nextUpdate == t.nextUpdate && r.finished == t.finished
    ensures r.nextSubmit == Some(AfterReflection(Classify(e.cost, Known(t.funSimplex))))
  {
    var f := t.funSimplex;
    if e.cost < f[0].value then
      t.(nextSubmit := Some(SubmitExpansion))
    else if e.cost < f[t.dim - 1].value then
      UpdateLast(t, e.x, e.cost).(nextSubmit := Some(NewIter))
    else if e.cost < f[t.dim].value then
      t.(nextSubmit := Some(SubmitContraction))
    else
      t.(nextSubmit := Some(SubmitInsideContraction))
  }

  /** `choose_step`: cache the reflected point, then choose. */
  function AfterChooseStep(s: EngineState, e: Evaluation): (r: EngineState)
    requires Shaped(s) && AllKnown(s.funSimplex) && |e.x| == s.dim
    ensures r.nextUpdate == None && r.finished == s.finished
    ensures r.nextSubmit == Some(AfterReflection(Classify(e.cost, Known(s.funSimplex))))
  {
    ChooseFrom(EnterUpdate(s, ChooseStep, [e.cost]).(extraPoints := map["xr" := e]), e)
  }

  function AfterSubmitExpansion(s: EngineState): (r: EngineState)
    requires Shaped(s)
    ensures r.nextSubmit == None && r.nextUpdate == Some(UpdateExpansion) && r.finished == s.finished
  {
    EnterSubmit(s, SubmitExpansion).(pending := [Expansion(Centroid(s.simplex, s.dim), s.simplex[s.dim])])
  }

  /** `update_expansion`: the worst vertex becomes the better of the
      expanded and the cached reflected point (the reflected one on a tie). */
  function AfterUpdateExpansion(s: EngineState, e: Evaluation): (r: EngineState)
    requires Shaped(s) && |e.x| == s.dim
    requires "xr" in s.extraPoints && |s.extraPoints["xr"].x| == s.dim
    ensures r.nextSubmit == Some(NewIter) && r.nextUpdate == None && r.finished == s.finished
  {
    var xe, fxe := e.x, e.cost;
    var xr, fxr := s.extraPoints["xr"].x, s.extraPoints["xr"].cost;
    var t := EnterUpdate(s, UpdateExpansion, [fxe]);
    if fxe < fxr then UpdateLast(t, xe, fxe) else UpdateLast(t, xr, fxr)
  }

  function AfterSubmitContraction(s: EngineState): (r: EngineState)
    requires Shaped(s)
    ensures r.nextSubmit == None && r.nextUpdate == Some(UpdateContraction) && r.finished == s.finished
  {
    EnterSubmit(s, SubmitContraction).(pending := [OutsideContraction(Centroid(s.simplex, s.dim), s.simplex[s.dim])])
  }

  /** `update_contraction`: accept the outside contraction if it beats the
      cached reflected point, shrink otherwise. */
  function AfterUpdateContraction(s: EngineState, e: Evaluation): (r: EngineState)
    requires Shaped(s) && |e.x| == s.dim && "xr" in s.extraPoints
    ensures r.nextUpdate == None && r.finished == s.finished
    ensures r.nextSubmit == Some(if e.cost < s.extraPoints["xr"].cost then NewIter else SubmitShrink)
  {
    var xc, fxc := e.x, e.cost;
    var t := EnterUpdate(s, UpdateContraction, [fxc]);
    if fxc < s.extraPoints["xr"].cost then
      UpdateLast(t, xc, fxc).(nextSubmit := Some(NewIter))
    else
      t.(nextSubmit := Some(SubmitShrink))
  }

  function AfterSubmitInsideContraction(s: EngineState): (r: EngineState)
    requires Shaped(s)
    ensures r.nextSubmit == None && r.nextUpdate == Some(UpdateInsideContraction) && r.finished == s.finished
  {
    EnterSubmit(s, SubmitInsideContraction).(pending := [InsideContraction(Centroid(s.simplex, s.dim), s.simplex[s.dim])])
  }

  /** `update_inside_contraction`: accept the inside contraction if it beats
      the worst vertex, shrink otherwise. */
  function AfterUpdateInsideContraction(s: EngineState, e: Evaluation): (r: EngineState)
    requires Shaped(s) && |e.x| == s.dim && s.funSimplex[s.dim].Some?
    ensures r.nextUpdate == None && r.finished == s.finished
    ensures r.nextSubmit == Some(if e.cost < s.funSimplex[s.dim].value then NewIter else SubmitShrink)
  {
    var xcc, fxcc := e.x, e.cost;
    var t := EnterUpdate(s, UpdateInsideContraction, [fxcc]);
    if fxcc < s.funSimplex[s.dim].value then
      UpdateLast(t, xcc, fxcc).(nextSubmit := Some(NewIter))
    else
      t.(nextSubmit := Some(SubmitShrink))
  }

  /** `submit_shrink`: every vertex but the best moves half-way toward it,
      loses its cost, and is handed out. */
  function AfterSubmitShrink(s: EngineState): (r: EngineState)
    requires Shaped(s)
    ensures Shaped(r)
    ensures r.nextSubmit == None && r.nextUpdate == Some(UpdateShrink) && r.finished == s.finished
  {
    var rows := Shrunk(s.simplex);
    EnterSubmit(s, SubmitShrink).(
      simplex := rows,
      funSimplex := seq(s.dim + 1, i requires 0 <= i <= s.dim => if i == 0 then s.funSimplex[0] else None),
      pending := rows[1..])
  }

  /** `update_shrink`: the new costs fill every slot but the best one. */
  function AfterUpdateShrink(s: EngineState, values: seq<real>): (r: EngineState)
    requires Shaped(s) && |values| == s.dim
    ensures r.nextSubmit == Some(NewIter) && r.nextUpdate == None && r.finished == s.finished
  {
    EnterUpdate(s, UpdateShrink, values).(funSimplex := [s.funSimplex[0]] + Somes(values))
  }
}
