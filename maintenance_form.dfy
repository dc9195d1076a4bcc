/** The maintenance dialog shared by "add" and "edit": it is prefilled from the record it is
    given (if any), and its submit updates that record or adds a new one for the car. */
module MaintenanceForm {
  import opened Js
  import Api
  import UpdateMaintenance

  const SaveFailedMessage := "Failed to save maintenance record"

  const EmptyForm: Object := map[
    "maintenanceType" := Str(""), "dateScheduled" := Str(""), "dateCompleted" := Str(""),
    "cost" := Str(""), "notes" := Str("")]

  /** `d?.split("T")[0] || ""`: nothing becomes "", a string its date part, and any other
      value throws (`None`), having no `split`. */
  function DateField(d: Value): (r: Option<Value>)
    ensures Nullish(d) ==> r == Some(Str(""))
    ensures d.Str? ==> r.Some? && r.value.Str? && r.value.s <= d.s && 'T' !in r.value.s
    ensures d.Str? ==> r == Some(Str(UpdateMaintenance.DatePart(d.s)))
    ensures d.Str? && |r.value.s| < |d.s| ==> d.s[|r.value.s|] == 'T'
    ensures r.Some? <==> Nullish(d) || d.Str?
  {
    if Nullish(d) then Some(Str(""))
    else if d.Str? then Some(Or(Str(UpdateMaintenance.DatePart(d.s)), Str("")))
    else None
  }

  /** A timestamp is cut just before its first "T". */
  lemma DateFieldCutsAtFirstT()
    ensures DateField(Str("2024-01-01T10:00")) == Some(Str("2024-01-01"))
  {
    SplitHeadIsFirstSegment("2024-01-01T10:00", 'T', "2024-01-01");
  }

  /** The form's fields for the given `maintenance` prop (which the effect reads only when
      it is truthy), or `None` when building them throws. */
  function Prefill(maintenance: Value): (r: Option<Object>)
    requires Truthy(maintenance)
    ensures r.Some? <==> DateField(Member(maintenance, "dateScheduled")).Some? &&
                         DateField(Member(maintenance, "dateCompleted")).Some?
    ensures r.Some? ==> r.value.Keys == EmptyForm.Keys
    ensures r.Some? ==> r.value["maintenanceType"] == Member(maintenance, "maintenanceType")
    ensures r.Some? ==> forall k :: k in {"dateScheduled", "dateCompleted"} ==>
                          r.value[k] == DateField(Member(maintenance, k)).value
    ensures r.Some? ==> forall k :: k in {"cost", "notes"} ==>
                          r.value[k] == (if Truthy(Member(maintenance, k)) then Member(maintenance, k) else Str(""))
  {
    var scheduled := DateField(Member(maintenance, "dateScheduled"));
    var completed := DateField(Member(maintenance, "dateCompleted"));
    if scheduled.None? || completed.None? then None
    else Some(map[
      "maintenanceType" := Member(maintenance, "maintenanceType"),
      "dateScheduled" := scheduled.value,
      "dateCompleted" := completed.value,
      "cost" := Or(Member(maintenance, "cost"), Str("")),
      "notes" := Or(Member(maintenance, "notes"), Str(""))])
  }

  /** `{...formData, carId}`: the form with the car taken from the prop. */
  function Payload(form: Object, carId: Value): (p: Object)
    ensures p.Keys == form.Keys + {"carId"}
    ensures p["carId"] == carId
    ensures forall k :: k in form && k != "carId" ==> p[k] == form[k]
  {
    form["carId" := carId]
  }

  /** The call the submit makes: an update of `maintenance._id` when a record was given,
      an add otherwise, with the same payload in both branches. */
  function SaveRequest(maintenance: Value, carId: Value, form: Object): (r: Api.Request)
    ensures r.body == Some(Obj(Payload(form, carId))) && r.params == None
    ensures r.verb == Api.PUT <==> Truthy(maintenance)
    ensures Truthy(maintenance) ==>
              StripPrefix(Api.UpdateMaintenancePrefix, r.path) == Some(TemplateText(Member(maintenance, "_id")))
    ensures !Truthy(maintenance) ==> r == Api.AddMaintenance(Obj(Payload(form, carId)))
  {
    if Truthy(maintenance) then
      var req := Api.UpdateMaintenance(TemplateText(Member(maintenance, "_id")), Obj(Payload(form, carId)));
      Api.UpdateMaintenanceNamesRecord(TemplateText(Member(maintenance, "_id")), Obj(Payload(form, carId)));
      req
    else
      Api.AddMaintenance(Obj(Payload(form, carId)))
  }

  class MaintenanceFormState {
    const carId: Value
    const maintenance: Value
    var formData: Object
    var loading: bool
    var error: Value
    /** Whether the prefill effect threw. */
    var prefillThrew: bool

    /** Mounting the dialog: empty initial values, then the prefill effect. */
    constructor (carId: Value, maintenance: Value)
      ensures this.carId == carId && this.maintenance == maintenance
      ensures !loading && error == Str("")
      ensures formData == (if Truthy(maintenance) && Prefill(maintenance).Some? then Prefill(maintenance).value
                           else EmptyForm)
      ensures prefillThrew <==> Truthy(maintenance) && Prefill(maintenance).None?
    {
      this.carId := carId;
      this.maintenance := maintenance;
      formData, loading, error, prefillThrew := EmptyForm, false, Str(""), false;
      new;
      if Truthy(maintenance) {
        var prefilled := Prefill(maintenance);
        if prefilled.Some? {
          formData := prefilled.value;
        } else {
          prefillThrew := true;
        }
      }
    }

    method HandleChange(name: string, value: string)
      modifies this
      ensures formData == old(formData)[name := Str(value)]
      ensures loading == old(loading) && error == old(error) && prefillThrew == old(prefillThrew)
    {
      formData := formData[name := Str(value)];
    }

    /** Loading on, the error cleared, and the save call. */
    method BeginSubmit() returns (request: Api.Request)
      modifies this
      ensures loading && error == Str("") && formData == old(formData) && prefillThrew == old(prefillThrew)
      ensures request == SaveRequest(maintenance, carId, formData)
    {
      loading := true;
      error := Str("");
      request := SaveRequest(maintenance, carId, formData);
    }

    /** After the call: `onSuccess()` on success, the error text otherwise; loading off. */
    method FinishSubmit(outcome: Api.Response) returns (callOnSuccess: bool)
      modifies this
      ensures !loading && formData == old(formData) && prefillThrew == old(prefillThrew)
      ensures callOnSuccess <==> outcome.Ok?
      ensures error == if outcome.Ok? then old(error) else Api.FailureText(outcome.message, SaveFailedMessage)
    {
      callOnSuccess := outcome.Ok?;
      if outcome.Err? {
        error := Api.FailureText(outcome.message, SaveFailedMessage);
      }
      loading := false;
    }
  }

  /** Without a record the dialog keeps its empty values and its submit adds a new record. */
  lemma NoRecordMeansAdd(carId: Value, form: Object)
    ensures SaveRequest(Undefined, carId, form).verb == Api.POST
    ensures SaveRequest(Null, carId, form) == Api.AddMaintenance(Obj(Payload(form, carId)))
  {
  }
}
