/** The "add maintenance record" screen: the list of cars offered for a new record (those
    without an open record), the checks its submit runs in order, the payload it sends, and
    its form state. */
module AddMaintenance {
  import opened Js
  import Api

  const SelectCarMessage := "Please select a car"
  const SelectDateMessage := "Please select a scheduled date"
  const AddedMessage := "Maintenance record added successfully"
  const AddFailedMessage := "Failed to add maintenance record"
  const FetchFailedMessage := "Failed to fetch data"

  const InitialForm: Object := map[
    "carId" := Str(""), "maintenanceType" := Str(""), "dateScheduled" := Str(""),
    "dateCompleted" := Str(""), "cost" := Str(""), "notes" := Str("")]

  /** `record.carId === car._id && !record.dateCompleted`: the record is scheduled for this car
      and not yet completed. */
  predicate IsOpenRecordFor(record: Object, car: Object) {
    StrictEquals(Prop(record, "carId"), Prop(car, "_id")) && !Truthy(Prop(record, "dateCompleted"))
  }

  /** `maintenanceRecords.some(...)` for one car. */
  function HasScheduledMaintenance(car: Object, records: seq<Object>): (r: bool)
    ensures r <==> exists rec :: rec in records && IsOpenRecordFor(rec, car)
  {
    if records == [] then false
    else IsOpenRecordFor(records[0], car) || HasScheduledMaintenance(car, records[1..])
  }

  /** `cars.filter(car => !hasMaintenanceScheduled)`. */
  function AvailableCars(cars: seq<Object>, records: seq<Object>): (r: seq<Object>)
    ensures IsSubsequence(r, cars)
    ensures forall car :: car in r <==> car in cars && !HasScheduledMaintenance(car, records)
    ensures forall car :: multiset(r)[car] ==
              if HasScheduledMaintenance(car, records) then 0 else multiset(cars)[car]
  {
    assert cars != [] ==> cars == [cars[0]] + cars[1..];
    if cars == [] then []
    else if HasScheduledMaintenance(cars[0], records) then AvailableCars(cars[1..], records)
    else [cars[0]] + AvailableCars(cars[1..], records)
  }

  /** A record that is completed, or that belongs to none of the cars, never takes a car off
      the list. */
  lemma {:induction false} IrrelevantRecordKeepsCars(cars: seq<Object>, records: seq<Object>, extra: Object)
    requires Truthy(Prop(extra, "dateCompleted")) ||
             forall car :: car in cars ==> !StrictEquals(Prop(extra, "carId"), Prop(car, "_id"))
    ensures AvailableCars(cars, records + [extra]) == AvailableCars(cars, records)
  {
    if cars != [] {
      var car := cars[0];
      assert !IsOpenRecordFor(extra, car);
      assert HasScheduledMaintenance(car, records + [extra]) == HasScheduledMaintenance(car, records) by {
        forall rec | rec in records + [extra] && IsOpenRecordFor(rec, car) ensures rec in records {
        }
      }
      IrrelevantRecordKeepsCars(cars[1..], records, extra);
    }
  }

  /** An open record for a car removes it, whatever else is on the list. */
  lemma OpenRecordRemovesCar(cars: seq<Object>, records: seq<Object>, extra: Object, car: Object)
    requires IsOpenRecordFor(extra, car)
    ensures car !in AvailableCars(cars, records + [extra])
  {
    assert extra in records + [extra];
  }

  /** The submit's checks, in order: a car first, then a scheduled date. */
  function ValidationError(form: Object): (r: Option<string>)
    ensures r == Some(SelectCarMessage) <==> !Truthy(Prop(form, "carId"))
    ensures r == Some(SelectDateMessage) <==> Truthy(Prop(form, "carId")) && !Truthy(Prop(form, "dateScheduled"))
    ensures r == None <==> Truthy(Prop(form, "carId")) && Truthy(Prop(form, "dateScheduled"))
  {
    if !Truthy(Prop(form, "carId")) then Some(SelectCarMessage)
    else if !Truthy(Prop(form, "dateScheduled")) then Some(SelectDateMessage)
    else None
  }

  /** `{...formData, cost: formData.cost ? Number(formData.cost) : 0}`. */
  function SubmissionPayload(form: Object, parseDecimal: string -> Option<real>): (p: Object)
    ensures p.Keys == form.Keys + {"cost"}
    ensures forall k :: k in form && k != "cost" ==> p[k] == form[k]
    ensures p["cost"] == if Truthy(Prop(form, "cost")) then NumberOf(form["cost"], parseDecimal) else Num(0.0)
  {
    form["cost" := if Truthy(Prop(form, "cost")) then NumberOf(Prop(form, "cost"), parseDecimal) else Num(0.0)]
  }

  /** The first half of `handleSubmit`, up to the awaited call. A call keeps the `carId` of
      the form it was started from: the handler reads that render's `formData` after the
      `await`, whatever the fields hold by then. */
  datatype SubmitStart = Rejected(toast: string) | Calling(request: Api.Request, carId: Value)

  /** What the second half leaves behind: a toast and, on success, the page to go to. */
  datatype SubmitEnd = SubmitEnd(toastSuccess: bool, toast: Value, navigateTo: Option<string>)

  class AddMaintenancePage {
    var cars: seq<Object>
    var maintenanceRecords: seq<Object>
    var isLoading: bool
    var formData: Object

    constructor ()
      ensures cars == [] && maintenanceRecords == [] && !isLoading && formData == InitialForm
    {
      cars, maintenanceRecords, isLoading, formData := [], [], false, InitialForm;
    }

    /** The cars the select offers. */
    function Options(): (r: seq<Object>)
      reads this
      ensures IsSubsequence(r, cars)
      ensures forall car :: car in r <==> car in cars && !HasScheduledMaintenance(car, maintenanceRecords)
      ensures forall car :: multiset(r)[car] ==
                if HasScheduledMaintenance(car, maintenanceRecords) then 0 else multiset(cars)[car]
    {
      AvailableCars(cars, maintenanceRecords)
    }

    /** The mount effect: the cars are stored as soon as they arrive, then the records; a
        failure of either call leaves a toast and the lists fetched so far. */
    method FetchData(carsResult: Option<seq<Object>>, recordsResult: Option<seq<Object>>)
      returns (toast: Option<string>)
      modifies this
      ensures cars == (if carsResult.Some? then carsResult.value else old(cars))
      ensures maintenanceRecords ==
                (if carsResult.Some? && recordsResult.Some? then recordsResult.value else old(maintenanceRecords))
      ensures toast == (if carsResult.Some? && recordsResult.Some? then None else Some(FetchFailedMessage))
      ensures formData == old(formData) && isLoading == old(isLoading)
    {
      toast := Some(FetchFailedMessage);
      if carsResult.Some? {
        cars := carsResult.value;
        if recordsResult.Some? {
          maintenanceRecords := recordsResult.value;
          toast := None;
        }
      }
    }

    /** The mount effect as written: `maintenanceAPI` has no `getAllMaintenanceRecords`, so
        the second call throws before any request is sent and the records stay as they were. */
    method FetchDataAsWritten(carsResult: Option<seq<Object>>) returns (toast: Option<string>)
      modifies this
      ensures cars == (if carsResult.Some? then carsResult.value else old(cars))
      ensures maintenanceRecords == old(maintenanceRecords)
      ensures toast == Some(FetchFailedMessage)
      ensures formData == old(formData) && isLoading == old(isLoading)
    {
      toast := FetchData(carsResult, None);
    }

    /** `handleChange`: only the named field takes the input's (string) value. */
    method HandleChange(name: string, value: string)
      modifies this
      ensures formData == old(formData)[name := Str(value)]
      ensures cars == old(cars) && maintenanceRecords == old(maintenanceRecords) && isLoading == old(isLoading)
    {
      formData := formData[name := Str(value)];
    }

    /** Validation, then loading and the add call with the payload. */
    method BeginSubmit(parseDecimal: string -> Option<real>) returns (r: SubmitStart)
      modifies this
      ensures r.Rejected? <==> ValidationError(formData).Some?
      ensures r.Rejected? ==> r.toast == ValidationError(formData).value && isLoading == old(isLoading)
      ensures r.Calling? ==> isLoading && r.request == Api.AddMaintenance(Obj(SubmissionPayload(formData, parseDecimal)))
                             && r.carId == Prop(formData, "carId")
      ensures formData == old(formData) && cars == old(cars) && maintenanceRecords == old(maintenanceRecords)
    {
      var invalid := ValidationError(formData);
      if invalid.Some? {
        r := Rejected(invalid.value);
        return;
      }
      isLoading := true;
      r := Calling(Api.AddMaintenance(Obj(SubmissionPayload(formData, parseDecimal))), Prop(formData, "carId"));
    }

    /** After the call started with `submittedCarId`: a toast, navigation to that car's
        records on success, and loading off in every case. */
    method FinishSubmit(outcome: Api.Response, submittedCarId: Value) returns (r: SubmitEnd)
      modifies this
      ensures !isLoading
      ensures r.toastSuccess <==> outcome.Ok?
      ensures outcome.Ok? ==> r == SubmitEnd(true, Str(AddedMessage),
                                 Some("/dashboard/maintenance/" + TemplateText(submittedCarId)))
      ensures outcome.Err? ==> r == SubmitEnd(false, Api.FailureText(outcome.message, AddFailedMessage), None)
      ensures formData == old(formData) && cars == old(cars) && maintenanceRecords == old(maintenanceRecords)
    {
      if outcome.Ok? {
        r := SubmitEnd(true, Str(AddedMessage), Some("/dashboard/maintenance/" + TemplateText(submittedCarId)));
      } else {
        r := SubmitEnd(false, Api.FailureText(outcome.message, AddFailedMessage), None);
      }
      isLoading := false;
    }
  }

  /** With no records every car is offered, in its order. */
  lemma {:induction false} NoRecordsKeepAllCars(cars: seq<Object>)
    ensures AvailableCars(cars, []) == cars
  {
    if cars != [] {
      NoRecordsKeepAllCars(cars[1..]);
      assert cars == [cars[0]] + cars[1..];
    }
  }

  /** Mounting the screen as written: the failure toast always shows and every fetched car
      is offered, including one that already has an open record. */
  method MountAsWritten(fetchedCars: seq<Object>) returns (options: seq<Object>, toast: Option<string>)
    ensures options == fetchedCars
    ensures toast == Some(FetchFailedMessage)
  {
    var page := new AddMaintenancePage();
    toast := page.FetchDataAsWritten(Some(fetchedCars));
    options := page.Options();
    NoRecordsKeepAllCars(fetchedCars);
  }

  /** Mounting the screen once both lists arrive: exactly the cars without an open record
      are offered, in their order, and no toast shows. */
  method Mount(fetchedCars: seq<Object>, fetchedRecords: seq<Object>) returns (options: seq<Object>, toast: Option<string>)
    ensures toast == None
    ensures IsSubsequence(options, fetchedCars)
    ensures forall car :: car in options <==> car in fetchedCars && !HasScheduledMaintenance(car, fetchedRecords)
    ensures forall car :: multiset(options)[car] ==
              if HasScheduledMaintenance(car, fetchedRecords) then 0 else multiset(fetchedCars)[car]
  {
    var page := new AddMaintenancePage();
    toast := page.FetchData(Some(fetchedCars), Some(fetchedRecords));
    options := page.Options();
  }

  /** One car with one open record: the list as written still offers the car, the intended
      list does not. */
  lemma OpenRecordCounterexample()
    ensures var car := map["_id" := Str("c1")];
            var record := map["carId" := Str("c1"), "dateCompleted" := Str("")];
            AvailableCars([car], []) == [car] && AvailableCars([car], [record]) == []
  {
    var car := map["_id" := Str("c1")];
    var record := map["carId" := Str("c1"), "dateCompleted" := Str("")];
    assert IsOpenRecordFor(record, car);
    NoRecordsKeepAllCars([car]);
  }

  /** A car chosen again while the add call is pending does not move the navigation: a
      successful submit opens the records of the car it was started for. */
  method SubmitThenChangeCar(form: Object, parseDecimal: string -> Option<real>, otherCar: string)
    returns (started: bool, navigateTo: Option<string>)
    ensures started <==> ValidationError(form).None?
    ensures started ==> navigateTo == Some("/dashboard/maintenance/" + TemplateText(Prop(form, "carId")))
    ensures !started ==> navigateTo == None
  {
    var page := new AddMaintenancePage();
    page.formData := form;
    var start := page.BeginSubmit(parseDecimal);
    started := start.Calling?;
    navigateTo := None;
    if started {
      page.HandleChange("carId", otherCar);
      var end := page.FinishSubmit(Api.Ok(Undefined), start.carId);
      navigateTo := end.navigateTo;
    }
  }

  /** An empty car is rejected before the date is looked at, so no call is made. */
  lemma MissingCarRejectedFirst(form: Object)
    requires Prop(form, "carId") == Str("")
    ensures ValidationError(form) == Some(SelectCarMessage)
  {
  }

  /** The payload keeps every field as typed except cost, which becomes a number. */
  lemma PayloadCostIsNumber(form: Object, parseDecimal: string -> Option<real>)
    requires forall k :: k in form ==> form[k].Str?
    ensures var c := SubmissionPayload(form, parseDecimal)["cost"]; c.Num? || c.NaN?
    ensures Prop(form, "cost") == Str("") ==> SubmissionPayload(form, parseDecimal)["cost"] == Num(0.0)
  {
  }
}
