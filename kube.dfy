/** The slice of a Kubernetes API object that the readiness engine reads.

    An object is either unstructured (its fields are read directly) or typed
    (it is first converted to unstructured form, which may fail). Only the
    fields the checks look at are kept: the metadata generation and the
    `.status.observedGeneration` and `.status.conditions` fields, each of
    which may be missing, present, or not accessible (a value of the wrong
    shape on the way). The conditions payload additionally records whether
    its JSON round trip into `metav1.Condition` values succeeded. */
module Kube {
  import opened Errors

  /** `metav1.ConditionStatus`: any string, normally "True", "False" or "Unknown". */
  type ConditionStatus = string

  const ConditionTrue: ConditionStatus := "True"
  const ConditionFalse: ConditionStatus := "False"
  const ConditionUnknown: ConditionStatus := "Unknown"

  /** `metav1.Condition`; an absent observedGeneration decodes as 0. */
  datatype Condition = Condition(conditionType: string, status: ConditionStatus, observedGeneration: int)

  /** Outcome of an `unstructured.Nested*` lookup. */
  datatype Field<+T> = Missing | Present(value: T) | Inaccessible(err: Error)

  /** The raw `.status.conditions` value after `json.Marshal` and `json.Unmarshal`. */
  datatype ConditionsPayload =
    | Decoded(conditions: seq<Condition>)
    | MarshalFailed(err: Error)
    | UnmarshalFailed(err: Error)

  datatype StatusFields = StatusFields(observedGeneration: Field<int>, conditions: Field<ConditionsPayload>)

  /** How the object is held: `*unstructured.Unstructured`, or a typed object
      whose conversion by `runtime.DefaultUnstructuredConverter` may fail. */
  datatype Form = UnstructuredForm | TypedForm(conversionError: Option<Error>)

  datatype Object = Object(
    namespace: string,
    name: string,
    generation: int,
    form: Form,
    status: StatusFields)

  /** The caller's object after the controller-runtime client's `Create`:
      on success the server's reply is decoded into it; a failed request,
      AlreadyExists included, leaves it as it was. */
  function ObjectAfterCreate(createErr: Option<Error>, reply: Object, obj: Object): (r: Object)
    ensures createErr.None? ==> r == reply
    ensures createErr.Some? ==> r == obj
  {
    if createErr.None? then reply else obj
  }

  /** `schema.GroupVersionKind`. */
  datatype GroupVersionKind = GroupVersionKind(group: string, version: string, kind: string)

  /** `gvk.GroupKind().String()` as apimachinery defines it: the kind alone for
      the core group, otherwise kind, a dot, and the group. */
  function GroupKindString(gvk: GroupVersionKind): string
  {
    if gvk.group == "" then gvk.kind else gvk.kind + "." + gvk.group
  }
}
