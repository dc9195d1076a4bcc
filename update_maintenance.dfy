/** The "update maintenance record" screen: the mapping from the fetched record to the
    form's fields, and the form state with its change and submit handlers. */
module UpdateMaintenance {
  import opened Js
  import Api

  const FetchFailedMessage := "Failed to fetch maintenance record"
  const UpdatedMessage := "Maintenance record updated successfully"
  const UpdateFailedMessage := "Failed to update maintenance record"

  const FormKeys := {"maintenanceType", "dateScheduled", "dateCompleted", "cost", "notes"}

  const InitialForm: Object := map[
    "maintenanceType" := Str(""), "dateScheduled" := Str(""), "dateCompleted" := Str(""),
    "cost" := Str(""), "notes" := Str("")]

  /** The date part of an ISO timestamp: `s.split("T")[0]`. */
  function DatePart(s: string): string {
    SplitHead(s, 'T')
  }

  /** The form built from the fetched record, or `None` when building it throws (the record
      is missing, its `dateScheduled` is not a string, or a truthy `dateCompleted` is not a
      string: only strings have `split`). */
  function RecordToForm(record: Value): (r: Option<Object>)
    ensures r.Some? <==> !Nullish(record) && Member(record, "dateScheduled").Str? &&
                         (Truthy(Member(record, "dateCompleted")) ==> Member(record, "dateCompleted").Str?)
    ensures r.Some? ==> r.value.Keys == FormKeys
    ensures r.Some? ==> r.value["maintenanceType"] == Member(record, "maintenanceType")
    ensures r.Some? ==> r.value["dateScheduled"] == Str(DatePart(Member(record, "dateScheduled").s))
    ensures r.Some? ==> r.value["dateCompleted"] == (if Truthy(Member(record, "dateCompleted"))
                                                     then Str(DatePart(Member(record, "dateCompleted").s))
                                                     else Str(""))
    ensures r.Some? ==> forall k :: k in {"cost", "notes"} ==>
                          r.value[k] == (if Truthy(Member(record, k)) then Member(record, k) else Str(""))
  {
    var scheduled := Member(record, "dateScheduled");
    var completed := Member(record, "dateCompleted");
    if Nullish(record) || !scheduled.Str? || (Truthy(completed) && !completed.Str?) then None
    else Some(map[
      "maintenanceType" := Member(record, "maintenanceType"),
      "dateScheduled" := Str(DatePart(scheduled.s)),
      "dateCompleted" := if Truthy(completed) then Str(DatePart(completed.s)) else Str(""),
      "cost" := Or(Member(record, "cost"), Str("")),
      "notes" := Or(Member(record, "notes"), Str(""))])
  }

  /** The dates shown are prefixes of the stored ones and contain no "T"; a date already
      without "T" is shown as stored. */
  lemma DatesAreTruncatedPrefixes(record: Value)
    requires RecordToForm(record).Some?
    ensures var f := RecordToForm(record).value;
            f["dateScheduled"].Str? && f["dateScheduled"].s <= Member(record, "dateScheduled").s &&
            'T' !in f["dateScheduled"].s
    ensures 'T' !in Member(record, "dateScheduled").s ==>
              RecordToForm(record).value["dateScheduled"] == Member(record, "dateScheduled")
  {
    var s := Member(record, "dateScheduled").s;
    if 'T' !in s {
      SplitHeadWithoutSeparator(s, 'T');
    }
  }

  /** A cost of 0 is falsy, so it is shown as an empty field. */
  lemma ZeroCostShownEmpty(record: Value)
    requires RecordToForm(record).Some? && Member(record, "cost") == Num(0.0)
    ensures RecordToForm(record).value["cost"] == Str("")
  {
    assert "cost" in {"cost", "notes"};
  }

  /** What the submit leaves behind: a toast and, on success, going back one page. */
  datatype SubmitEnd = SubmitEnd(toastSuccess: bool, toast: Value, navigateBack: bool)

  class UpdateMaintenancePage {
    const maintenanceId: string
    var isLoading: bool
    var formData: Object

    constructor (maintenanceId: string)
      ensures this.maintenanceId == maintenanceId && !isLoading && formData == InitialForm
    {
      this.maintenanceId := maintenanceId;
      isLoading, formData := false, InitialForm;
    }

    /** The mount effect: the fetched `response.data.maintenance` fills the form; a failed
        call or a record the mapping throws on leaves a toast and goes back one page. */
    method FetchMaintenanceRecord(outcome: Api.Response) returns (toast: Option<string>, navigateBack: bool)
      modifies this
      ensures var form := if outcome.Ok? then RecordToForm(Member(outcome.data, "maintenance")) else None;
              formData == (if form.Some? then form.value else old(formData)) &&
              toast == (if form.Some? then None else Some(FetchFailedMessage)) &&
              navigateBack == form.None?
      ensures isLoading == old(isLoading)
    {
      var form := if outcome.Ok? then RecordToForm(Member(outcome.data, "maintenance")) else None;
      if form.Some? {
        formData := form.value;
        toast, navigateBack := None, false;
      } else {
        toast, navigateBack := Some(FetchFailedMessage), true;
      }
    }

    /** The mount effect as written: `maintenanceAPI` has no `getMaintenanceById`, so the
        call throws a `TypeError` without a response, before any request is sent. */
    method FetchMaintenanceRecordAsWritten() returns (toast: Option<string>, navigateBack: bool)
      modifies this
      ensures formData == old(formData) && isLoading == old(isLoading)
      ensures toast == Some(FetchFailedMessage) && navigateBack
    {
      toast, navigateBack := FetchMaintenanceRecord(Api.Err(Undefined));
    }

    method HandleChange(name: string, value: string)
      modifies this
      ensures formData == old(formData)[name := Str(value)]
      ensures isLoading == old(isLoading)
    {
      formData := formData[name := Str(value)];
    }

    /** Loading on, and the form sent as it stands to the record's update endpoint. */
    method BeginSubmit() returns (request: Api.Request)
      modifies this
      ensures isLoading && formData == old(formData)
      ensures request == Api.UpdateMaintenance(maintenanceId, Obj(formData))
    {
      isLoading := true;
      request := Api.UpdateMaintenance(maintenanceId, Obj(formData));
    }

    method FinishSubmit(outcome: Api.Response) returns (r: SubmitEnd)
      modifies this
      ensures !isLoading && formData == old(formData)
      ensures outcome.Ok? ==> r == SubmitEnd(true, Str(UpdatedMessage), true)
      ensures outcome.Err? ==> r == SubmitEnd(false, Api.FailureText(outcome.message, UpdateFailedMessage), false)
    {
      if outcome.Ok? {
        r := SubmitEnd(true, Str(UpdatedMessage), true);
      } else {
        r := SubmitEnd(false, Api.FailureText(outcome.message, UpdateFailedMessage), false);
      }
      isLoading := false;
    }
  }

  /** Opening the screen as written: the form is never filled, the failure toast shows and
      the browser goes back, whatever record the id names. */
  method MountAsWritten(maintenanceId: string) returns (formData: Object, toast: Option<string>, navigateBack: bool)
    ensures formData == InitialForm && toast == Some(FetchFailedMessage) && navigateBack
  {
    var page := new UpdateMaintenancePage(maintenanceId);
    toast, navigateBack := page.FetchMaintenanceRecordAsWritten();
    formData := page.formData;
  }

  /** Opening the screen once the record arrives: a record the mapping accepts fills the
      form and the screen stays; any other ends in the toast and going back. */
  method Mount(maintenanceId: string, record: Value) returns (formData: Object, toast: Option<string>, navigateBack: bool)
    ensures navigateBack <==> RecordToForm(record).None?
    ensures formData == if RecordToForm(record).Some? then RecordToForm(record).value else InitialForm
    ensures toast == if RecordToForm(record).Some? then None else Some(FetchFailedMessage)
  {
    var page := new UpdateMaintenancePage(maintenanceId);
    toast, navigateBack := page.FetchMaintenanceRecord(Api.Ok(Obj(map["maintenance" := record])));
    formData := page.formData;
  }

  /** A record with a plain scheduled date: the intended screen shows that date, where the
      screen as written keeps the initial empty one. */
  lemma PrefillCounterexample()
    ensures var record := Obj(map["dateScheduled" := Str("2024")]);
            RecordToForm(record).Some? && RecordToForm(record).value["dateScheduled"] == Str("2024") &&
            InitialForm["dateScheduled"] == Str("")
  {
    var fields := map["dateScheduled" := Str("2024")];
    var record := Obj(fields);
    assert "dateCompleted" !in fields;
    assert Member(record, "dateScheduled") == Str("2024") && Member(record, "dateCompleted") == Undefined;
    SplitHeadWithoutSeparator("2024", 'T');
    assert RecordToForm(record).Some?;
  }
}
