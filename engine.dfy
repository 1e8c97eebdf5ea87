/** The engine object. The vertices and their costs live in arrays that the
    phases update in place (or replace, where the engine builds new arrays);
    the remaining state lives in fields. Each phase method is tied to the
    step function of the same name through `Snapshot`, so what is proved of
    the step functions holds of the object. */
module Engine {
  import opened Wrappers
  import opened Vectors
  import opened Sorting
  import opened Results
  import opened Simplex
  import opened Steps
  import opened Invariant

  class NelderMead {
    const dim: nat
    const xtol: real
    const ftol: real
    const maxIter: int
    var simplex: array<Vec>
    var funSimplex: array<Option<real>>
    var numIter: int
    var extraPoints: map<string, Evaluation>
    var nextSubmit: Option<SubmitPhase>
    var nextUpdate: Option<UpdatePhase>
    var finished: bool
    /** The points the last submit half handed out. */
    ghost var pending: seq<Vec>
    /** Every cost consumed so far. */
    ghost var history: seq<real>

    /** The object's state as a value. */
    ghost function Snapshot(): EngineState
      reads this, simplex, funSimplex
    {
      EngineState(dim, xtol, ftol, maxIter, simplex[..], funSimplex[..], numIter, extraPoints,
        nextSubmit, nextUpdate, finished, pending, history)
    }

    ghost predicate Valid()
      reads this, simplex, funSimplex
    {
      Inv(Snapshot())
    }

    /** A fresh run on the given vertices. */
    constructor (rows: seq<Vec>, xtol: real, ftol: real, numIter: int, maxIter: int)
      requires WellShaped(rows)
      ensures Valid() && Snapshot() == Initial(rows, xtol, ftol, numIter, maxIter)
      ensures fresh(simplex) && fresh(funSimplex)
    {
      dim := |rows| - 1;
      this.xtol := xtol;
      this.ftol := ftol;
      this.maxIter := maxIter;
      simplex := new Vec[|rows|](i requires 0 <= i < |rows| => rows[i]);
      funSimplex := new Option<real>[|rows|](_ => None);
      this.numIter := numIter;
      extraPoints := map[];
      nextSubmit := Some(SubmitPhase.SubmitInitialize);
      nextUpdate := None;
      finished := false;
      pending := [];
      history := [];
      new;
      assert simplex[..] == rows;
      assert funSimplex[..] == seq(|rows|, i => None);
      InitialInv(rows, xtol, ftol, numIter, maxIter);
    }

    /** The `submit_method` decoration. */
    method BeginSubmit(p: SubmitPhase)
      modifies this`nextSubmit, this`nextUpdate
      ensures Snapshot() == EnterSubmit(old(Snapshot()), p)
    {
      nextSubmit := None;
      nextUpdate := DeclaredUpdate(p);
    }

    /** The `update_method` decoration; `consumed` is recorded. */
    method BeginUpdate(p: UpdatePhase, ghost consumed: seq<real>)
      modifies this`nextSubmit, this`nextUpdate, this`history
      ensures Snapshot() == EnterUpdate(old(Snapshot()), p, consumed)
    {
      nextSubmit := DeclaredSubmit(p);
      nextUpdate := None;
      history := history + consumed;
    }

    /** `_update_last`: the worst vertex and its cost are overwritten. */
    method UpdateLast(x: Vec, f: real)
      requires Shaped(Snapshot()) && |x| == dim
      modifies simplex, funSimplex
      ensures Snapshot() == Steps.UpdateLast(old(Snapshot()), x, f)
    {
      simplex[dim] := x;
      funSimplex[dim] := Some(f);
    }

    method SubmitInitialize() returns (inputs: seq<Vec>)
      requires Valid() && nextSubmit == Some(SubmitPhase.SubmitInitialize)
      modifies this
      ensures Valid() && Snapshot() == AfterSubmitInitialize(old(Snapshot()))
      ensures inputs == pending
    {
      ghost var s := Snapshot();
      BeginSubmit(SubmitPhase.SubmitInitialize);
      inputs := simplex[..];
      pending := inputs;
      assert Snapshot() == AfterSubmitInitialize(s);
      SubmitInitializeKeeps(s);
    }

    method UpdateInitialize(outputs: Batch)
      requires Valid() && nextUpdate == Some(UpdatePhase.UpdateInitialize) && Points(outputs) == pending
      modifies this
      ensures Valid() && Snapshot() == Updated(old(Snapshot()), outputs)
    {
      ghost var s := Snapshot();
      var values := Costs(outputs);
      UpdatedByInitialize(s, outputs);
      ApplyUpdateInitialize(values);
      UpdateInitializeKeeps(s, values);
    }

    /** `update_initialize` under its decoration: a new cost array, one cost
        per vertex. */
    method ApplyUpdateInitialize(values: seq<real>)
      modifies this
      ensures fresh(funSimplex)
      ensures Snapshot() == AfterUpdateInitialize(old(Snapshot()), values)
    {
      BeginUpdate(UpdatePhase.UpdateInitialize, values);
      funSimplex := new Option<real>[|values|](i requires 0 <= i < |values| => Some(values[i]));
      assert funSimplex[..] == Somes(values);
    }

    /** `do_sort`: new arrays holding the vertices and costs in the order of
        the argsort of the costs. */
    method DoSort()
      requires Shaped(Snapshot()) && AllKnown(funSimplex[..])
      modifies this`simplex, this`funSimplex
      ensures fresh(simplex) && fresh(funSimplex)
      ensures Snapshot() == Sort(old(Snapshot()))
    {
      var idx := Argsort(Known(funSimplex[..]));
      var costs := Take(funSimplex[..], idx);
      var rows := Take(simplex[..], idx);
      assert costs == Somes(Take(Known(funSimplex[..]), idx));
      funSimplex := new Option<real>[|costs|](i requires 0 <= i < |costs| => costs[i]);
      simplex := new Vec[|rows|](i requires 0 <= i < |rows| => rows[i]);
      assert funSimplex[..] == costs && simplex[..] == rows;
    }

    /** `check_finished`. */
    method CheckFinished()
      requires Shaped(Snapshot()) && AllKnown(funSimplex[..])
      modifies this`finished
      ensures Snapshot() == Steps.CheckFinished(old(Snapshot()))
    {
      finished := Converged(simplex[..], Known(funSimplex[..]), xtol, ftol);
    }

    method NewIter() returns (inputs: seq<Vec>)
      requires Valid() && nextSubmit == Some(SubmitPhase.NewIter)
      modifies this
      ensures Valid() && Snapshot() == AfterNewIter(old(Snapshot()))
      ensures inputs == pending
    {
      ghost var s := Snapshot();
      assert !Initializing(s) && AllKnown(s.funSimplex);
      BeginSubmit(SubmitPhase.NewIter);
      inputs := NewIterBody();
      assert Snapshot() == AfterNewIter(s);
      NewIterKeeps(s);
    }

    /** What `new_iter` does under its decoration: sort, test for
        convergence, then proceed. */
    method NewIterBody() returns (inputs: seq<Vec>)
      requires Shaped(Snapshot()) && AllKnown(funSimplex[..])
      requires nextSubmit.None? && nextUpdate.None?
      modifies this
      ensures Snapshot() == AfterNewIter(old(Snapshot()))
      ensures inputs == pending
    {
      ghost var s := Snapshot();
      assert EnterSubmit(s, SubmitPhase.NewIter) == s;
      DoSort();
      CheckFinished();
      inputs := Proceed();
    }

    /** The end of `new_iter`: stop, or count an iteration and hand out the
        reflection of the worst vertex through the centroid of the others. */
    method Proceed() returns (inputs: seq<Vec>)
      requires Shaped(Snapshot())
      modifies this`numIter, this`nextUpdate, this`pending
      ensures Snapshot() == Steps.Proceed(old(Snapshot()))
      ensures inputs == pending
    {
      if finished {
        nextUpdate := Some(UpdatePhase.Finalize);
        inputs := [];
      } else {
        var xr := Reflection(Centroid(simplex[..], dim), simplex[dim]);
        numIter := numIter + 1;
        nextUpdate := Some(UpdatePhase.ChooseStep);
        inputs := [xr];
      }
      pending := inputs;
    }

    method Finalize(outputs: Batch)
      requires Valid() && nextUpdate == Some(UpdatePhase.Finalize) && Points(outputs) == pending
      modifies this
      ensures Valid() && Snapshot() == Updated(old(Snapshot()), outputs)
    {
      ghost var s := Snapshot();
      BeginUpdate(UpdatePhase.Finalize, []);
      assert Snapshot() == AfterFinalize(s);
      FinalizeKeeps(s);
    }

    method ChooseStep(outputs: Batch)
      requires Valid() && nextUpdate == Some(UpdatePhase.ChooseStep) && Points(outputs) == pending
      modifies this, simplex, funSimplex
      ensures Valid() && Snapshot() == Updated(old(Snapshot()), outputs)
    {
      ghost var s := Snapshot();
      UpdatedBySingle(s, outputs);
      var e := Single(outputs);
      ApplyChooseStep(e);
    }

    /** `choose_step` under its decoration. */
    method ApplyChooseStep(e: Evaluation)
      requires Shaped(Snapshot()) && AllKnown(funSimplex[..]) && |e.x| == dim
      modifies this, simplex, funSimplex
      ensures Snapshot() == AfterChooseStep(old(Snapshot()), e)
    {
      BeginUpdate(UpdatePhase.ChooseStep, [e.cost]);
      extraPoints := map["xr" := e];
      Choose(e);
    }

    /** The choice after the reflection, on the current costs. */
    method Choose(e: Evaluation)
      requires Shaped(Snapshot()) && AllKnown(funSimplex[..]) && |e.x| == dim
      modifies this`nextSubmit, simplex, funSimplex
      ensures Snapshot() == ChooseFrom(old(Snapshot()), e)
    {
      ghost var f := Known(funSimplex[..]);
      var best, secondWorst, worst := funSimplex[0].value, funSimplex[dim - 1].value, funSimplex[dim].value;
      assert best == f[0] && secondWorst == f[dim - 1] && worst == f[dim];
      if e.cost < best {
        nextSubmit := Some(SubmitPhase.SubmitExpansion);
      } else if e.cost < secondWorst {
        UpdateLast(e.x, e.cost);
        nextSubmit := Some(SubmitPhase.NewIter);
      } else if e.cost < worst {
        nextSubmit := Some(SubmitPhase.SubmitContraction);
      } else {
        nextSubmit := Some(SubmitPhase.SubmitInsideContraction);
      }
    }

    method SubmitExpansion() returns (inputs: seq<Vec>)
      requires Valid() && nextSubmit == Some(SubmitPhase.SubmitExpansion)
      modifies this
      ensures Valid() && Snapshot() == AfterSubmitExpansion(old(Snapshot()))
      ensures inputs == pending
    {
      ghost var s := Snapshot();
      BeginSubmit(SubmitPhase.SubmitExpansion);
      var xe := Expansion(Centroid(simplex[..], dim), simplex[dim]);
      inputs := [xe];
      pending := inputs;
      assert Snapshot() == AfterSubmitExpansion(s);
      SubmitExpansionKeeps(s);
    }

    method UpdateExpansion(outputs: Batch)
      requires Valid() && nextUpdate == Some(UpdatePhase.UpdateExpansion) && Points(outputs) == pending
      modifies this, simplex, funSimplex
      ensures Valid() && Snapshot() == Updated(old(Snapshot()), outputs)
    {
      ghost var s := Snapshot();
      UpdatedBySingle(s, outputs);
      var e := Single(outputs);
      ApplyUpdateExpansion(e);
    }

    /** `update_expansion` under its decoration: the better of the expanded
        and the cached reflected point replaces the worst vertex. */
    method ApplyUpdateExpansion(e: Evaluation)
      requires Shaped(Snapshot()) && |e.x| == dim
      requires "xr" in extraPoints && |extraPoints["xr"].x| == dim
      modifies this, simplex, funSimplex
      ensures Snapshot() == AfterUpdateExpansion(old(Snapshot()), e)
    {
      var xr := extraPoints["xr"];
      BeginUpdate(UpdatePhase.UpdateExpansion, [e.cost]);
      if e.cost < xr.cost {
        UpdateLast(e.x, e.cost);
      } else {
        UpdateLast(xr.x, xr.cost);
      }
    }

    method SubmitContraction() returns (inputs: seq<Vec>)
      requires Valid() && nextSubmit == Some(SubmitPhase.SubmitContraction)
      modifies this
      ensures Valid() && Snapshot() == AfterSubmitContraction(old(Snapshot()))
      ensures inputs == pending
    {
      ghost var s := Snapshot();
      BeginSubmit(SubmitPhase.SubmitContraction);
      var xc := OutsideContraction(Centroid(simplex[..], dim), simplex[dim]);
      inputs := [xc];
      pending := inputs;
      assert Snapshot() == AfterSubmitContraction(s);
      SubmitContractionKeeps(s);
    }

    method UpdateContraction(outputs: Batch)
      requires Valid() && nextUpdate == Some(UpdatePhase.UpdateContraction) && Points(outputs) == pending
      modifies this, simplex, funSimplex
      ensures Valid() && Snapshot() == Updated(old(Snapshot()), outputs)
    {
      ghost var s := Snapshot();
      UpdatedBySingle(s, outputs);
      var e := Single(outputs);
      ApplyUpdateContraction(e);
    }

    /** `update_contraction` under its decoration. */
    method ApplyUpdateContraction(e: Evaluation)
      requires Shaped(Snapshot()) && |e.x| == dim && "xr" in extraPoints
      modifies this, simplex, funSimplex
      ensures Snapshot() == AfterUpdateContraction(old(Snapshot()), e)
    {
      var fxr := extraPoints["xr"].cost;
      BeginUpdate(UpdatePhase.UpdateContraction, [e.cost]);
      if e.cost < fxr {
        UpdateLast(e.x, e.cost);
        nextSubmit := Some(SubmitPhase.NewIter);
      } else {
        nextSubmit := Some(SubmitPhase.SubmitShrink);
      }
    }

    method SubmitInsideContraction() returns (inputs: seq<Vec>)
      requires Valid() && nextSubmit == Some(SubmitPhase.SubmitInsideContraction)
      modifies this
      ensures Valid() && Snapshot() == AfterSubmitInsideContraction(old(Snapshot()))
      ensures inputs == pending
    {
      ghost var s := Snapshot();
      BeginSubmit(SubmitPhase.SubmitInsideContraction);
      var xcc := InsideContraction(Centroid(simplex[..], dim), simplex[dim]);
      inputs := [xcc];
      pending := inputs;
      assert Snapshot() == AfterSubmitInsideContraction(s);
      SubmitInsideContractionKeeps(s);
    }

    method UpdateInsideContraction(outputs: Batch)
      requires Valid() && nextUpdate == Some(UpdatePhase.UpdateInsideContraction) && Points(outputs) == pending
      modifies this, simplex, funSimplex
      ensures Valid() && Snapshot() == Updated(old(Snapshot()), outputs)
    {
      ghost var s := Snapshot();
      UpdatedBySingle(s, outputs);
      var e := Single(outputs);
      ApplyUpdateInsideContraction(e);
    }

    /** `update_inside_contraction` under its decoration. */
    method ApplyUpdateInsideContraction(e: Evaluation)
      requires Shaped(Snapshot()) && |e.x| == dim && funSimplex[dim].Some?
      modifies this, simplex, funSimplex
      ensures Snapshot() == AfterUpdateInsideContraction(old(Snapshot()), e)
    {
      BeginUpdate(UpdatePhase.UpdateInsideContraction, [e.cost]);
      if e.cost < funSimplex[dim].value {
        UpdateLast(e.x, e.cost);
        nextSubmit := Some(SubmitPhase.NewIter);
      } else {
        nextSubmit := Some(SubmitPhase.SubmitShrink);
      }
    }

    method SubmitShrink() returns (inputs: seq<Vec>)
      requires Valid() && nextSubmit == Some(SubmitPhase.SubmitShrink)
      modifies this, simplex, funSimplex
      ensures Valid() && Snapshot() == AfterSubmitShrink(old(Snapshot()))
      ensures inputs == pending
    {
      ghost var s := Snapshot();
      inputs := ApplySubmitShrink();
      assert Snapshot() == AfterSubmitShrink(s);
      SubmitShrinkKeeps(s);
    }

    /** `submit_shrink` under its decoration: every vertex but the best
        moves half-way toward it in place and loses its cost. */
    method ApplySubmitShrink() returns (inputs: seq<Vec>)
      requires Shaped(Snapshot())
      modifies this, simplex, funSimplex
      ensures Snapshot() == AfterSubmitShrink(old(Snapshot()))
      ensures inputs == pending
    {
      ghost var s := Snapshot();
      BeginSubmit(SubmitPhase.SubmitShrink);
      var best := simplex[0];
      forall i | 1 <= i < simplex.Length {
        simplex[i] := ShrinkToward(best, simplex[i]);
      }
      forall i | 1 <= i < funSimplex.Length {
        funSimplex[i] := None;
      }
      assert simplex[..] == Shrunk(s.simplex);
      inputs := simplex[1..];
      pending := inputs;
    }

    method UpdateShrink(outputs: Batch)
      requires Valid() && nextUpdate == Some(UpdatePhase.UpdateShrink) && Points(outputs) == pending
      modifies this, simplex, funSimplex
      ensures Valid() && Snapshot() == Updated(old(Snapshot()), outputs)
    {
      ghost var s := Snapshot();
      var values := Costs(outputs);
      UpdatedByShrink(s, outputs);
      ApplyUpdateShrink(values);
    }

    /** `update_shrink` under its decoration: the new costs fill every slot
        but the best one, in place. */
    method ApplyUpdateShrink(values: seq<real>)
      requires Shaped(Snapshot()) && |values| == dim
      modifies this, funSimplex
      ensures Snapshot() == AfterUpdateShrink(old(Snapshot()), values)
    {
      ghost var f0 := funSimplex[0];
      BeginUpdate(UpdatePhase.UpdateShrink, values);
      forall i | 1 <= i < funSimplex.Length {
        funSimplex[i] := Some(values[i - 1]);
      }
      assert funSimplex[..] == [f0] + Somes(values);
    }

    /** `is_finished`. */
    method IsFinished() returns (done: bool)
      requires Valid()
      ensures done == finished
      ensures done ==> nextSubmit.None?
      ensures nextSubmit.None? && nextUpdate.None? ==> done
    {
      done := finished;
    }

    /** `_create_inputs`: the submit half `next_submit` names. */
    method CreateInputs() returns (inputs: seq<Vec>)
      requires Valid() && nextSubmit.Some?
      modifies this, simplex, funSimplex
      ensures Valid() && Snapshot() == Submitted(old(Snapshot()))
      ensures inputs == pending
    {
      match nextSubmit.value
      case SubmitInitialize =>
        inputs := SubmitInitialize();
      case NewIter =>
        inputs := NewIter();
      case SubmitExpansion =>
        inputs := SubmitExpansion();
      case SubmitContraction =>
        inputs := SubmitContraction();
      case SubmitInsideContraction =>
        inputs := SubmitInsideContraction();
      case SubmitShrink =>
        inputs := SubmitShrink();
    }

    /** `_update`: the update half `next_update` names. */
    method Update(outputs: Batch)
      requires Valid() && nextUpdate.Some? && Points(outputs) == pending
      modifies this, simplex, funSimplex
      ensures Valid() && Snapshot() == Updated(old(Snapshot()), outputs)
    {
      match nextUpdate.value
      case UpdateInitialize =>
        UpdateInitialize(outputs);
      case Finalize =>
        Finalize(outputs);
      case ChooseStep =>
        ChooseStep(outputs);
      case UpdateExpansion =>
        UpdateExpansion(outputs);
      case UpdateContraction =>
        UpdateContraction(outputs);
      case UpdateInsideContraction =>
        UpdateInsideContraction(outputs);
      case UpdateShrink =>
        UpdateShrink(outputs);
    }

    /** `result_value`: the entry of least cost in the result mapping; its
        cost is the best vertex's, as the engine asserts. */
    method ResultValue(mapping: seq<Entry>) returns (v: Entry)
      requires Valid() && finished
      requires multiset(EntryCosts(mapping)) == multiset(history)
      ensures v in mapping && forall j :: 0 <= j < |mapping| ==> v.cost <= mapping[j].cost
      ensures funSimplex[0] == Some(v.cost)
    {
      FinishedResultIsBest(Snapshot(), mapping);
      v := OptimalResult(mapping).value;
      assert funSimplex[0] == Some(v.cost);
    }

    /** `result_index`: the identifier of that entry; None where the
        mapping is empty and the lookup raises. */
    method ResultIndex(mapping: seq<Entry>) returns (index: Option<int>)
      ensures index.None? <==> mapping == []
      ensures index.Some? ==>
        exists k :: 0 <= k < |mapping| && mapping[k].id == index.value &&
          (forall j :: 0 <= j < |mapping| ==> mapping[k].cost <= mapping[j].cost) &&
          (forall j :: 0 <= j < k ==> mapping[k].cost < mapping[j].cost)
    {
      var best := OptimalResult(mapping);
      if best.None? {
        index := None;
      } else {
        index := Some(best.value.id);
      }
    }
  }
}
