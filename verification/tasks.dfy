/** Tasks as the completion layer sees them: an outcome per task and the
    combinator Task.WhenAll that the fan-in and fan-out wrappers use. */
module Tasks {

  /** The exceptions that travel through completion: an engine-level fault,
      the AggregateException a faulted task exposes, and the argument checks
      of the builders. */
  datatype Error =
    | Raised(id: nat)
    | Aggregate(inner: seq<Error>)
    | ArgumentNull(paramName: string)

  /** The status of a task: still running, ran to completion, faulted with
      its exceptions in order, or canceled. */
  datatype Outcome = Pending | Ran | Faulted(errors: seq<Error>) | Canceled

  predicate IsTerminal(o: Outcome) {
    !o.Pending?
  }

  function ErrorsOf(o: Outcome): seq<Error> {
    if o.Faulted? then o.errors else []
  }

  /** One step of Task.WhenAll: the outcome so far combined with one more task. */
  function Join(acc: Outcome, o: Outcome): Outcome {
    if acc.Pending? || o.Pending? then Pending
    else if acc.Faulted? || o.Faulted? then Faulted(ErrorsOf(acc) + ErrorsOf(o))
    else if acc.Canceled? || o.Canceled? then Canceled
    else Ran
  }

  /** Task.WhenAll over the tasks, in order: pending while any task is,
      faulted with every task's exceptions once all are done and one faulted,
      canceled when none faulted and one was canceled, and ran otherwise
      (also for no tasks at all). */
  function WhenAll(os: seq<Outcome>): Outcome
    decreases |os|
  {
    if os == [] then Ran else Join(WhenAll(os[..|os| - 1]), os[|os| - 1])
  }

  /** Reference definition: the exceptions of the faulted tasks, in task order. */
  function AllErrors(os: seq<Outcome>): seq<Error>
    decreases |os|
  {
    if os == [] then [] else AllErrors(os[..|os| - 1]) + ErrorsOf(os[|os| - 1])
  }

  lemma {:induction false} WhenAllPendingIff(os: seq<Outcome>)
    ensures WhenAll(os).Pending? <==> exists i :: 0 <= i < |os| && os[i].Pending?
    decreases |os|
  {
    if os != [] {
      var init := os[..|os| - 1];
      WhenAllPendingIff(init);
      assert forall i :: 0 <= i < |init| ==> init[i] == os[i];
      if !WhenAll(os).Pending? {
        assert forall i :: 0 <= i < |os| ==> !os[i].Pending? by {
          forall i | 0 <= i < |os| ensures !os[i].Pending? {
            if i < |init| { assert !init[i].Pending?; }
          }
        }
      }
    }
  }

  lemma {:induction false} WhenAllFaultedIff(os: seq<Outcome>)
    ensures WhenAll(os).Faulted? <==>
      (forall i :: 0 <= i < |os| ==> !os[i].Pending?) &&
      (exists i :: 0 <= i < |os| && os[i].Faulted?)
    ensures !WhenAll(os).Pending? ==> ErrorsOf(WhenAll(os)) == AllErrors(os)
    decreases |os|
  {
    WhenAllPendingIff(os);
    if os != [] {
      var init := os[..|os| - 1];
      WhenAllFaultedIff(init);
      WhenAllPendingIff(init);
      assert forall i :: 0 <= i < |init| ==> init[i] == os[i];
      if (forall i :: 0 <= i < |os| ==> !os[i].Pending?) && (exists i :: 0 <= i < |os| && os[i].Faulted?) {
        var j :| 0 <= j < |os| && os[j].Faulted?;
        if j < |init| {
          assert init[j].Faulted?;
        }
      }
    }
  }

  lemma {:induction false} WhenAllCanceledIff(os: seq<Outcome>)
    ensures WhenAll(os).Canceled? <==>
      (forall i :: 0 <= i < |os| ==> !os[i].Pending? && !os[i].Faulted?) &&
      (exists i :: 0 <= i < |os| && os[i].Canceled?)
    decreases |os|
  {
    if os != [] {
      var init := os[..|os| - 1];
      WhenAllCanceledIff(init);
      WhenAllPendingIff(init);
      WhenAllFaultedIff(init);
      assert forall i :: 0 <= i < |init| ==> init[i] == os[i];
      if WhenAll(os).Canceled? {
        forall i | 0 <= i < |os| ensures !os[i].Pending? && !os[i].Faulted? {
          if i < |init| { assert !init[i].Pending? && !init[i].Faulted?; }
        }
      }
      if (forall i :: 0 <= i < |os| ==> !os[i].Pending? && !os[i].Faulted?) && (exists i :: 0 <= i < |os| && os[i].Canceled?) {
        var j :| 0 <= j < |os| && os[j].Canceled?;
        if j < |init| {
          assert init[j].Canceled?;
        }
      }
    }
  }

  lemma {:induction false} WhenAllRanIff(os: seq<Outcome>)
    ensures WhenAll(os) == Ran <==> forall i :: 0 <= i < |os| ==> os[i] == Ran
    decreases |os|
  {
    if os != [] {
      var init := os[..|os| - 1];
      WhenAllRanIff(init);
      assert forall i :: 0 <= i < |init| ==> init[i] == os[i];
      if WhenAll(os) == Ran {
        forall i | 0 <= i < |os| ensures os[i] == Ran {
          if i < |init| { assert init[i] == Ran; }
        }
      }
    }
  }

  /** No exception of a faulted task is lost: each one is in the combined fault. */
  lemma {:induction false} AllErrorsKeepsEvery(os: seq<Outcome>, i: int, e: Error)
    requires 0 <= i < |os| && os[i].Faulted? && e in os[i].errors
    ensures e in AllErrors(os)
    decreases |os|
  {
    if i < |os| - 1 {
      var init := os[..|os| - 1];
      assert init[i] == os[i];
      AllErrorsKeepsEvery(init, i, e);
    }
  }
}
