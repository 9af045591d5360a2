/** The readiness check combinators of package devcheck.

    A check reports `(success, err)`, a pair as in Go: both halves are free,
    so a check may report success together with an error. The client's `Get`
    is passed in as its outcome: either the freshly fetched object or the
    error the client returned. */
module DevCheck {
  import opened Errors
  import opened Kube

  datatype CheckResult = CheckResult(success: bool, err: Option<Error>)

  const Ready := CheckResult(true, None)
  const NotReady := CheckResult(false, None)

  /** `ObjCheck`: a check of an already fetched object. */
  type ObjCheck = Object -> CheckResult

  /** Outcome of `cli.Get(ctx, key, obj)`. */
  datatype GetResult = GetOk(fetched: Object) | GetErr(err: Error)

  /** A check that lets the next one run: success and no error. */
  predicate Passes(r: CheckResult)
  {
    r.err.None? && r.success
  }

  /** `meta.FindStatusCondition`: the first condition of the given type. */
  function FindStatusCondition(conditions: seq<Condition>, conditionType: string): (r: Option<Condition>)
    ensures r.None? <==> forall i :: 0 <= i < |conditions| ==> conditions[i].conditionType != conditionType
    ensures r.Some? ==> exists i :: 0 <= i < |conditions| && conditions[i] == r.value && IsFirstOfType(conditions, conditionType, i)
  {
    if conditions == [] then None
    else if conditions[0].conditionType == conditionType then Some(conditions[0])
    else
      var rest := FindStatusCondition(conditions[1..], conditionType);
      if rest.Some? then
        ghost var i :| 0 <= i < |conditions[1..]| && conditions[1..][i] == rest.value && IsFirstOfType(conditions[1..], conditionType, i);
        assert IsFirstOfType(conditions, conditionType, i + 1);
        rest
      else
        rest
  }

  /** Index i holds the first condition of the given type. */
  ghost predicate IsFirstOfType(conditions: seq<Condition>, conditionType: string, i: int)
  {
    0 <= i < |conditions| &&
    conditions[i].conditionType == conditionType &&
    forall j :: 0 <= j < i ==> conditions[j].conditionType != conditionType
  }

  lemma FirstOfTypeIsUnique(conditions: seq<Condition>, conditionType: string, i: int, k: int)
    requires IsFirstOfType(conditions, conditionType, i) && IsFirstOfType(conditions, conditionType, k)
    ensures i == k
  {
  }

  /** The object's status fields, or the error of converting it to unstructured form. */
  function UnstructuredStatus(obj: Object): (r: Result<StatusFields>)
    ensures r.Err? <==> obj.form.TypedForm? && obj.form.conversionError.Some?
    ensures r.Err? ==> r.error == obj.form.conversionError.value
    ensures r.Ok? ==> r.value == obj.status
  {
    match obj.form
    case UnstructuredForm => Ok(obj.status)
    case TypedForm(conversionError) =>
      if conversionError.Some? then Err(conversionError.value) else Ok(obj.status)
  }

  /** The closure that `ObjCheckStatusConditionIs(conditionType, want)` returns,
      applied to `obj`. The cases are taken in the order the code tests them. */
  function ConditionStatusIs(conditionType: string, want: ConditionStatus, obj: Object): (r: CheckResult)
    ensures r.err.Some? ==> !r.success
  {
    match UnstructuredStatus(obj)
    case Err(e) => CheckResult(false, Some(e))
    case Ok(status) =>
      if status.observedGeneration.Inaccessible? then
        CheckResult(false, Some(Wrap("could not access .status.observedGeneration", status.observedGeneration.err)))
      else if status.observedGeneration.Present? && status.observedGeneration.value != obj.generation then
        NotReady  // object status outdated
      else
        match status.conditions
        case Inaccessible(e) => CheckResult(false, Some(Wrap("could not access .status.conditions", e)))
        case Missing => NotReady  // no conditions reported
        case Present(MarshalFailed(e)) => CheckResult(false, Some(Wrap("could not marshal conditions into JSON", e)))
        case Present(UnmarshalFailed(e)) => CheckResult(false, Some(Wrap("could not unmarshal conditions", e)))
        case Present(Decoded(conditions)) =>
          match FindStatusCondition(conditions, conditionType)
          case None => NotReady  // no such condition
          case Some(c) =>
            if c.observedGeneration != 0 && c.observedGeneration != obj.generation then NotReady  // condition outdated
            else CheckResult(c.status == want, None)
  }

  /** `RealChecker.ObjCheckStatusConditionIs`: the check is ready exactly on
      an object that currently reports the wanted condition, and errs exactly
      on a malformed one. */
  function ObjCheckStatusConditionIs(conditionType: string, want: ConditionStatus): (check: ObjCheck)
    ensures forall obj :: check(obj) == Ready <==> ReportsCurrentCondition(obj, conditionType, want)
    ensures forall obj :: check(obj).err.Some? <==> MalformedForCheck(obj)
  {
    ConditionStatusIsMeans(conditionType, want);
    obj => ConditionStatusIs(conditionType, want, obj)
  }

  // ---------------------------------------------------------------------
  // Independent statement of when the condition check succeeds or errs.

  /** The object reports, currently, a condition of the type with the wanted status:
      the status is not outdated, the first condition of the type has the wanted
      status, and its own observedGeneration is unset (0) or current. */
  ghost predicate ReportsCurrentCondition(obj: Object, conditionType: string, want: ConditionStatus)
  {
    UnstructuredStatus(obj).Ok? &&
    var status := UnstructuredStatus(obj).value;
    (status.observedGeneration.Missing? || status.observedGeneration == Present(obj.generation)) &&
    status.conditions.Present? && status.conditions.value.Decoded? &&
    var cs := status.conditions.value.conditions;
    exists i :: IsFirstOfType(cs, conditionType, i) &&
      cs[i].status == want &&
      (cs[i].observedGeneration == 0 || cs[i].observedGeneration == obj.generation)
  }

  /** The object's shape makes the check fail with an error: the conversion fails,
      the status generation cannot be read, or (when the status is not outdated)
      the conditions cannot be read or decoded. */
  ghost predicate MalformedForCheck(obj: Object)
  {
    UnstructuredStatus(obj).Err? ||
    var status := UnstructuredStatus(obj).value;
    status.observedGeneration.Inaccessible? ||
    (!(status.observedGeneration.Present? && status.observedGeneration.value != obj.generation) &&
     (status.conditions.Inaccessible? ||
      (status.conditions.Present? && !status.conditions.value.Decoded?)))
  }

  /** The condition check succeeds exactly when the object currently reports the
      wanted status. */
  lemma ConditionStatusIsReadyIff(conditionType: string, want: ConditionStatus, obj: Object)
    ensures ConditionStatusIs(conditionType, want, obj) == Ready <==> ReportsCurrentCondition(obj, conditionType, want)
  {
    if UnstructuredStatus(obj).Ok? {
      var status := UnstructuredStatus(obj).value;
      if status.conditions.Present? && status.conditions.value.Decoded? {
        var cs := status.conditions.value.conditions;
        var found := FindStatusCondition(cs, conditionType);
        if found.Some? {
          var i :| 0 <= i < |cs| && cs[i] == found.value && IsFirstOfType(cs, conditionType, i);
          forall k | IsFirstOfType(cs, conditionType, k) ensures k == i {
            FirstOfTypeIsUnique(cs, conditionType, i, k);
          }
        }
      }
    }
  }

  /** The check errs exactly on a malformed object, and an error never comes with success. */
  /** `ConditionStatusIsReadyIff` and `ConditionStatusIsErrIff` for every object. */
  lemma ConditionStatusIsMeans(conditionType: string, want: ConditionStatus)
    ensures forall obj :: ConditionStatusIs(conditionType, want, obj) == Ready <==> ReportsCurrentCondition(obj, conditionType, want)
    ensures forall obj :: ConditionStatusIs(conditionType, want, obj).err.Some? <==> MalformedForCheck(obj)
  {
    forall obj
      ensures ConditionStatusIs(conditionType, want, obj) == Ready <==> ReportsCurrentCondition(obj, conditionType, want)
      ensures ConditionStatusIs(conditionType, want, obj).err.Some? <==> MalformedForCheck(obj)
    {
      ConditionStatusIsReadyIff(conditionType, want, obj);
      ConditionStatusIsErrIff(conditionType, want, obj);
    }
  }

  lemma ConditionStatusIsErrIff(conditionType: string, want: ConditionStatus, obj: Object)
    ensures ConditionStatusIs(conditionType, want, obj).err.Some? <==> MalformedForCheck(obj)
  {
  }

  /** An outdated `.status.observedGeneration` means not ready, never an error. */
  lemma StaleStatusIsNotReady(conditionType: string, want: ConditionStatus, obj: Object)
    requires UnstructuredStatus(obj).Ok?
    requires UnstructuredStatus(obj).value.observedGeneration.Present?
    requires UnstructuredStatus(obj).value.observedGeneration.value != obj.generation
    ensures ConditionStatusIs(conditionType, want, obj) == NotReady
  {
  }

  /** A first condition of the type whose nonzero observedGeneration is outdated
      means not ready, whatever its status. */
  lemma StaleConditionIsNotReady(conditionType: string, want: ConditionStatus, obj: Object, i: nat)
    requires UnstructuredStatus(obj).Ok?
    requires UnstructuredStatus(obj).value.observedGeneration in {Missing, Present(obj.generation)}
    requires UnstructuredStatus(obj).value.conditions.Present?
    requires UnstructuredStatus(obj).value.conditions.value.Decoded?
    requires IsFirstOfType(UnstructuredStatus(obj).value.conditions.value.conditions, conditionType, i)
    requires var c := UnstructuredStatus(obj).value.conditions.value.conditions[i];
      c.observedGeneration != 0 && c.observedGeneration != obj.generation
    ensures ConditionStatusIs(conditionType, want, obj) == NotReady
  {
    ConditionStatusIsReadyIff(conditionType, want, obj);
    ConditionStatusIsErrIff(conditionType, want, obj);
    var cs := UnstructuredStatus(obj).value.conditions.value.conditions;
    if ReportsCurrentCondition(obj, conditionType, want) {
      var k :| IsFirstOfType(cs, conditionType, k) && cs[k].status == want &&
        (cs[k].observedGeneration == 0 || cs[k].observedGeneration == obj.generation);
      FirstOfTypeIsUnique(cs, conditionType, i, k);
    }
  }

  /** Missing conditions, or no condition of the type, mean not ready, never an error. */
  lemma AbsentConditionIsNotReady(conditionType: string, want: ConditionStatus, obj: Object)
    requires UnstructuredStatus(obj).Ok?
    requires UnstructuredStatus(obj).value.observedGeneration in {Missing, Present(obj.generation)}
    requires var f := UnstructuredStatus(obj).value.conditions;
      f.Missing? ||
      (f.Present? && f.value.Decoded? &&
       forall i :: 0 <= i < |f.value.conditions| ==> f.value.conditions[i].conditionType != conditionType)
    ensures ConditionStatusIs(conditionType, want, obj) == NotReady
  {
  }

  // ---------------------------------------------------------------------
  // Checks that fetch the object.

  /** `RealChecker.CheckThere`: the object is there. */
  function CheckThere(get: GetResult): (r: CheckResult)
    ensures get.GetOk? ==> r == Ready
    ensures get.GetErr? && IsNotFound(get.err) ==> r == NotReady
    ensures get.GetErr? && !IsNotFound(get.err) ==> r == CheckResult(false, Some(get.err))
  {
    match get
    case GetOk(_) => Ready
    case GetErr(e) => if IsNotFound(e) then NotReady else CheckResult(false, Some(e))
  }

  /** `RealChecker.CheckGone`: the object is gone. */
  function CheckGone(get: GetResult): (r: CheckResult)
    ensures get.GetOk? ==> r == NotReady
    ensures get.GetErr? && IsNotFound(get.err) ==> r == Ready
    ensures get.GetErr? && !IsNotFound(get.err) ==> r == CheckResult(false, Some(get.err))
  {
    match get
    case GetOk(_) => NotReady
    case GetErr(e) => if IsNotFound(e) then Ready else CheckResult(false, Some(e))
  }

  /** CheckGone is CheckThere inverted: the same error, and the opposite verdict
      whenever there is no error. */
  lemma CheckGoneInvertsCheckThere(get: GetResult)
    ensures CheckGone(get).err == CheckThere(get).err
    ensures CheckThere(get).err.None? ==> CheckGone(get).success == !CheckThere(get).success
    ensures CheckThere(get).err.Some? ==> !CheckGone(get).success && !CheckThere(get).success
  {
  }

  /** The object checks run in order, stopping at the first one that does not pass. */
  function RunObjChecks(checks: seq<ObjCheck>, obj: Object): (r: CheckResult)
    ensures r.success ==> r.err.None?
  {
    if checks == [] then Ready
    else
      var first := checks[0](obj);
      if first.err.Some? then CheckResult(false, first.err)
      else if !first.success then NotReady
      else RunObjChecks(checks[1..], obj)
  }

  /** The object checks succeed together exactly when each of them passes. */
  lemma {:induction false} RunObjChecksSucceedsIff(checks: seq<ObjCheck>, obj: Object)
    ensures RunObjChecks(checks, obj).success <==> forall i :: 0 <= i < |checks| ==> Passes(checks[i](obj))
  {
    if checks != [] {
      RunObjChecksSucceedsIff(checks[1..], obj);
      assert forall i :: 1 <= i < |checks| ==> checks[i] == checks[1..][i - 1];
    }
  }

  /** A failing run reports the first check that did not pass: its error if it
      had one, otherwise plain not-ready. */
  lemma {:induction false} RunObjChecksStopsAtFirstFailure(checks: seq<ObjCheck>, obj: Object)
    requires !RunObjChecks(checks, obj).success
    ensures exists i :: (0 <= i < |checks| && !Passes(checks[i](obj)) &&
      (forall j :: 0 <= j < i ==> Passes(checks[j](obj))) &&
      RunObjChecks(checks, obj) == CheckResult(false, checks[i](obj).err))
  {
    var first := checks[0](obj);
    if Passes(first) {
      RunObjChecksStopsAtFirstFailure(checks[1..], obj);
      var i :| 0 <= i < |checks[1..]| && !Passes(checks[1..][i](obj)) &&
        (forall j :: 0 <= j < i ==> Passes(checks[1..][j](obj))) &&
        RunObjChecks(checks[1..], obj) == CheckResult(false, checks[1..][i](obj).err);
      assert forall j :: 1 <= j < i + 1 ==> checks[j] == checks[1..][j - 1];
      assert !Passes(checks[i + 1](obj));
    } else {
      assert !Passes(checks[0](obj));
    }
  }

  /** What `RealChecker.CheckObj` reports for one Get outcome. */
  function CheckObjResult(get: GetResult, obj: Object, checks: seq<ObjCheck>): CheckResult
  {
    match get
    case GetOk(_) => Ready
    case GetErr(e) => if IsNotFound(e) then NotReady else RunObjChecks(checks, obj)
  }

  /** `RealChecker.CheckObj`, one evaluation of the returned Check.
      As written, a successful Get reports ready at once and the object checks
      never run; they run only after a Get error other than NotFound, against
      the object as the caller holds it, and that Get error is dropped.
      `evaluated` counts the object checks called. */
  method CheckObj(get: GetResult, obj: Object, checks: seq<ObjCheck>) returns (r: CheckResult, ghost evaluated: nat)
    ensures r == CheckObjResult(get, obj, checks)
    ensures get.GetOk? ==> r == Ready && evaluated == 0
    ensures get.GetErr? && IsNotFound(get.err) ==> r == NotReady && evaluated == 0
    ensures evaluated <= |checks|
    ensures forall j :: 0 <= j < evaluated - 1 ==> Passes(checks[j](obj))
    ensures r.success ==> evaluated == |checks| || get.GetOk?
    ensures !r.success && evaluated > 0 ==> r == CheckResult(false, checks[evaluated - 1](obj).err)
  {
    evaluated := 0;
    match get {
      case GetOk(_) =>
        return Ready, 0;
      case GetErr(e) =>
        if IsNotFound(e) {
          return NotReady, 0;
        }
    }
    var i := 0;
    while i < |checks|
      invariant 0 <= i <= |checks|
      invariant evaluated == i
      invariant forall j :: 0 <= j < i ==> Passes(checks[j](obj))
      invariant RunObjChecks(checks, obj) == RunObjChecks(checks[i..], obj)
    {
      var res := checks[i](obj);
      evaluated := evaluated + 1;
      if res.err.Some? {
        return CheckResult(false, res.err), evaluated;
      }
      if !res.success {
        return NotReady, evaluated;
      }
      assert checks[i..][1..] == checks[i + 1..];
      i := i + 1;
    }
    return Ready, evaluated;
  }

  // ---------------------------------------------------------------------
  // The Checker interface.

  /** `Checker`: the real implementation, or any other one given by what its
      condition check and its object check report. */
  datatype Checker =
    | RealChecker
    | OtherChecker(
        conditionIs: (string, ConditionStatus) -> ObjCheck,
        checkObj: (GetResult, Object, seq<ObjCheck>) -> CheckResult)

  /** `RealCheckerIfNil`: a given checker is kept, an absent one becomes RealChecker. */
  function RealCheckerIfNil(checker: Option<Checker>): (r: Checker)
    ensures checker.Some? ==> r == checker.value
    ensures checker.None? ==> r.RealChecker?
  {
    if checker.Some? then checker.value else RealChecker
  }

  /** `checker.ObjCheckStatusConditionIs(conditionType, want)`. */
  function ConditionCheckOf(checker: Checker, conditionType: string, want: ConditionStatus): ObjCheck
  {
    match checker
    case RealChecker => ObjCheckStatusConditionIs(conditionType, want)
    case OtherChecker(conditionIs, _) => conditionIs(conditionType, want)
  }

  /** `checker.CheckObj(cli, obj, checks...)` evaluated against one Get outcome. */
  function CheckObjOf(checker: Checker, get: GetResult, obj: Object, checks: seq<ObjCheck>): CheckResult
  {
    match checker
    case RealChecker => CheckObjResult(get, obj, checks)
    case OtherChecker(_, checkObj) => checkObj(get, obj, checks)
  }
}
