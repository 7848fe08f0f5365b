/** The `App` component of App.tsx: the wizard's seven state fields, its handlers, and what it
    renders for each step. Each asynchronous handler is split into the synchronous part that runs
    when the user acts and the completion events that run when an awaited call settles.

    `State` is the abstract value of the component and `Next` its transition function; the
    class `App` keeps the same fields and its methods are proved to follow `Next`. */
module AppState {
  import opened Wrappers
  import opened Text
  import opened Types
  import Markdown
  import Gemini
  import Technicians

  const UnknownError := "An unknown error occurred."
  const NoTechniciansFound := "Could not find any technicians nearby. Please try again later."
  const SearchError := "An error occurred while fetching technicians."
  const LocationError := "Could not get your location. Please enable location services and try again."

  datatype State = State(
    step: AppStep,
    selectedAppliance: Option<Appliance>,
    diagnosis: string,
    technicians: seq<Technician>,
    error: Option<string>,
    filterQuery: string,
    sortOption: SortOption)

  /** The initial values of the seven `useState` hooks: the appliance grid, with nothing chosen
      yet. */
  function Initial(): (s: State)
    ensures ApplianceChosen(s) && View(s) == ApplianceGrid
    ensures s.selectedAppliance.None? && s.technicians == [] && s.error.None?
  {
    State(SelectAppliance, None, "", [], None, "", Default)
  }

  /** `err.message || fallback`: an absent or empty message gives the fallback. */
  function ErrorText(message: Option<string>, fallback: string): (e: string)
    ensures message.Some? && message.value != "" ==> e == message.value
    ensures (message.None? || message.value == "") ==> e == fallback
  {
    if message.Some? && message.value != "" then message.value else fallback
  }

  /** What can happen to the component: a user action, or an awaited call settling. A failure
      carries the `message` of what was thrown, or `None` when it had none (a file-read error,
      say). */
  datatype Event =
    | ApplianceSelected(appliance: Appliance)
    | SubmitStarted
    | DiagnosisSettled(diagnosisOutcome: Result<string, Option<string>>)
    | SearchStarted
    | LocationFailed
    | SearchSettled(searchOutcome: Result<seq<Technician>, Option<string>>)
    | ResetPressed
    | FilterChanged(query: string)
    | SortChanged(option: SortOption)

  /** The handlers exactly as written: a completion is applied whatever has happened since the
      call was started. */
  /** Each field has its own handlers: only selecting an appliance or starting over changes the
      appliance, only a successful diagnosis the diagnosis text, only a search with results the
      technician list, only "Start Over" leads back to the grid, and every error set is
      non-empty. */
  function NextAsWritten(s: State, e: Event): (r: State)
    ensures r.selectedAppliance != s.selectedAppliance ==> e.ApplianceSelected? || e.ResetPressed?
    ensures r.diagnosis != s.diagnosis ==>
      (e.DiagnosisSettled? && e.diagnosisOutcome.Success?) || e.ResetPressed?
    ensures r.technicians != s.technicians ==>
      (e.SearchSettled? && e.searchOutcome.Success? && e.searchOutcome.value != []) || e.ResetPressed?
    ensures r.step == SelectAppliance ==> s.step == SelectAppliance || e.ResetPressed?
    ensures r.error.Some? && r.error != s.error ==> r.error.value != ""
  {
    match e
    case ApplianceSelected(a) => s.(selectedAppliance := Some(a), step := DescribeIssue)
    case SubmitStarted =>
      if s.selectedAppliance.None? then s else s.(step := Diagnosing, error := None)
    case DiagnosisSettled(outcome) =>
      (match outcome
       case Success(d) => s.(diagnosis := d, step := ShowDiagnosis)
       case Failure(m) => s.(error := Some(ErrorText(m, UnknownError)), step := DescribeIssue))
    case SearchStarted =>
      if s.selectedAppliance.None? then s else s.(step := FindingTechnician, error := None)
    case LocationFailed => s.(error := Some(LocationError), step := ShowDiagnosis)
    case SearchSettled(outcome) =>
      (match outcome
       case Success(ts) =>
         if ts == [] then s.(error := Some(NoTechniciansFound), step := ShowDiagnosis)
         else s.(technicians := ts, step := ShowTechnicians)
       case Failure(m) => s.(error := Some(ErrorText(m, SearchError)), step := ShowDiagnosis))
    case ResetPressed => Initial()
    case FilterChanged(q) => s.(filterQuery := q)
    case SortChanged(o) => s.(sortOption := o)
  }

  /** A completion is stale when the step it completes is no longer the current one, because
      the user pressed "Start Over" (or otherwise moved on) while the call was pending. */
  predicate IsStale(s: State, e: Event) {
    ((e.DiagnosisSettled?) && s.step != Diagnosing) ||
    ((e.LocationFailed? || e.SearchSettled?) && s.step != FindingTechnician)
  }

  /** The handlers with stale completions dropped. Every transition keeps an appliance chosen. */
  function Next(s: State, e: Event): (r: State)
    ensures ApplianceChosen(s) ==> ApplianceChosen(r)
  {
    if IsStale(s, e) then s else NextAsWritten(s, e)
  }

  function Run(s: State, events: seq<Event>): State
    decreases |events|
  {
    if events == [] then s else Run(Next(s, events[0]), events[1..])
  }

  function RunAsWritten(s: State, events: seq<Event>): State
    decreases |events|
  {
    if events == [] then s else RunAsWritten(NextAsWritten(s, events[0]), events[1..])
  }

  lemma RunAsWrittenFirst(s: State, e: Event, rest: seq<Event>)
    ensures RunAsWritten(s, [e] + rest) == RunAsWritten(NextAsWritten(s, e), rest)
  {
    assert ([e] + rest)[1..] == rest;
  }

  /** Every step after the first has an appliance to work on. */
  predicate ApplianceChosen(s: State) {
    s.step != SelectAppliance ==> s.selectedAppliance.Some?
  }

  /** No event of the sequence is a stale completion at the state it meets. */
  predicate AllCurrent(s: State, events: seq<Event>)
    decreases |events|
  {
    events == [] || (!IsStale(s, events[0]) && AllCurrent(NextAsWritten(s, events[0]), events[1..]))
  }

  /** Dropping stale completions changes nothing else: along any sequence of events in which no
      completion is stale, the corrected handlers and the handlers as written reach the same
      state. */
  lemma {:induction false} RunAgreesWhenCurrent(s: State, events: seq<Event>)
    requires AllCurrent(s, events)
    ensures Run(s, events) == RunAsWritten(s, events)
    decreases |events|
  {
    if events != [] {
      RunAgreesWhenCurrent(NextAsWritten(s, events[0]), events[1..]);
    }
  }

  /** Whatever the user does and whenever the calls settle, an appliance is chosen in every step
      after the first. */
  lemma {:induction false} RunKeepsApplianceChosen(s: State, events: seq<Event>)
    requires ApplianceChosen(s)
    ensures ApplianceChosen(Run(s, events))
    decreases |events|
  {
    if events != [] {
      RunKeepsApplianceChosen(Next(s, events[0]), events[1..]);
    }
  }

  /** The effect of the synchronous part of `handleFormSubmit`: nothing without an appliance;
      otherwise the loading step with the error cleared and everything else kept. */
  lemma SubmitStartedEffect(s: State)
    ensures s.selectedAppliance.None? ==> Next(s, SubmitStarted) == s
    ensures s.selectedAppliance.Some? ==>
      var t := Next(s, SubmitStarted);
      t.step == Diagnosing && t.error.None? &&
      t == s.(step := t.step, error := t.error)
  {
  }

  /** How a pending diagnosis settles: on success the diagnosis is shown; on failure the form
      is shown again with a non-empty error and the previous diagnosis kept. */
  lemma DiagnosisSettledEffect(s: State, outcome: Result<string, Option<string>>)
    requires s.step == Diagnosing
    ensures var t := Next(s, DiagnosisSettled(outcome));
      (outcome.Success? ==> t.step == ShowDiagnosis && t.diagnosis == outcome.value &&
                            t == s.(step := t.step, diagnosis := t.diagnosis)) &&
      (outcome.Failure? ==> t.step == DescribeIssue && t.error.Some? && t.error.value != "" &&
                            t == s.(step := t.step, error := t.error))
  {
  }

  /** The synchronous part of `handleFindTechnician`: nothing without an appliance; otherwise
      the searching step with the error cleared. */
  lemma SearchStartedEffect(s: State)
    ensures s.selectedAppliance.None? ==> Next(s, SearchStarted) == s
    ensures s.selectedAppliance.Some? ==>
      var t := Next(s, SearchStarted);
      t.step == FindingTechnician && t.error.None? &&
      t == s.(step := t.step, error := t.error)
  {
  }

  /** How a pending search settles: a non-empty list is shown; an empty list, an error or a
      failed location lookup go back to the diagnosis with a non-empty error and the previous
      technicians kept. */
  lemma SearchSettledEffect(s: State, e: Event)
    requires s.step == FindingTechnician && (e.LocationFailed? || e.SearchSettled?)
    ensures var t := Next(s, e);
      (e.SearchSettled? && e.searchOutcome.Success? && e.searchOutcome.value != [] ==>
         t.step == ShowTechnicians && t.technicians == e.searchOutcome.value &&
         t == s.(step := t.step, technicians := t.technicians)) &&
      (!(e.SearchSettled? && e.searchOutcome.Success? && e.searchOutcome.value != []) ==>
         t.step == ShowDiagnosis && t.error.Some? && t.error.value != "" &&
         t == s.(step := t.step, error := t.error))
  {
  }

  /** "Start Over" restores every field's initial value, from any state, so pressing it twice
      is pressing it once. */
  lemma ResetRestoresInitial(s: State)
    ensures Next(s, ResetPressed) == Initial()
    ensures Next(Next(s, ResetPressed), ResetPressed) == Next(s, ResetPressed)
    ensures ApplianceChosen(Next(s, ResetPressed))
  {
  }

  /** What the main area shows; `Nothing` is the `return null` of `renderStep`. */
  datatype Screen =
    | ApplianceGrid
    | ServiceForm(appliance: Appliance)
    | Loading(title: string)
    | DiagnosisDisplay(blocks: seq<Markdown.Block>)
    | TechnicianList(applianceName: string, filterQuery: string, sortOption: SortOption)
    | Nothing

  /** `renderStep`. It renders nothing exactly when the form or the list lacks its appliance.
      The list screen carries the appliance and the filter and sort settings; the list itself is
      `App.ShownTechnicians`. */
  function View(s: State): (r: Screen)
    ensures r == Nothing <==>
      (s.step == DescribeIssue || s.step == ShowTechnicians) && s.selectedAppliance.None?
    ensures r.DiagnosisDisplay? ==> |r.blocks| == Count(s.diagnosis, '\n') + 1
  {
    match s.step
    case SelectAppliance => ApplianceGrid
    case DescribeIssue =>
      if s.selectedAppliance.Some? then ServiceForm(s.selectedAppliance.value) else Nothing
    case Diagnosing => Loading("Analyzing Issue...")
    case ShowDiagnosis => DiagnosisDisplay(Markdown.RenderMarkdown(s.diagnosis))
    case FindingTechnician => Loading("Finding Technicians...")
    case ShowTechnicians =>
      if s.selectedAppliance.Some?
      then TechnicianList(s.selectedAppliance.value.name, s.filterQuery, s.sortOption)
      else Nothing
  }

  /** The header offers "Start Over" on every step but the first. */
  predicate ResetVisible(s: State) {
    s.step != SelectAppliance
  }

  /** With stale completions dropped, the `return null` branches are unreachable. */
  lemma {:induction false} ReachableScreensNeverNothing(events: seq<Event>)
    ensures View(Run(Initial(), events)) != Nothing
  {
    RunKeepsApplianceChosen(Initial(), events);
  }

  /** As written, a diagnosis failing after "Start Over" leaves the describe step without an
      appliance, and the screen renders nothing. "Start Over" is on screen while the diagnosis is
      pending. */
  lemma StaleDiagnosisFailureShowsNothing(a: Appliance, message: Option<string>)
    ensures ResetVisible(RunAsWritten(Initial(), [ApplianceSelected(a), SubmitStarted]))
    ensures View(RunAsWritten(Initial(),
      [ApplianceSelected(a), SubmitStarted, ResetPressed, DiagnosisSettled(Failure(message))])) == Nothing
  {
    var s1 := NextAsWritten(Initial(), ApplianceSelected(a));
    var s2 := NextAsWritten(s1, SubmitStarted);
    var s3 := NextAsWritten(s2, ResetPressed);
    var s4 := NextAsWritten(s3, DiagnosisSettled(Failure(message)));
    RunAsWrittenFirst(Initial(), ApplianceSelected(a), [SubmitStarted]);
    RunAsWrittenFirst(s1, SubmitStarted, []);
    RunAsWrittenFirst(Initial(), ApplianceSelected(a), [SubmitStarted, ResetPressed, DiagnosisSettled(Failure(message))]);
    RunAsWrittenFirst(s1, SubmitStarted, [ResetPressed, DiagnosisSettled(Failure(message))]);
    RunAsWrittenFirst(s2, ResetPressed, [DiagnosisSettled(Failure(message))]);
    RunAsWrittenFirst(s3, DiagnosisSettled(Failure(message)), []);
    assert s4.step == DescribeIssue && s4.selectedAppliance.None?;
  }

  /** As written, a search succeeding after "Start Over" leaves the list step without an
      appliance, and the screen renders nothing. */
  lemma StaleSearchShowsNothing(a: Appliance, d: string, t: Technician)
    ensures ResetVisible(RunAsWritten(Initial(),
      [ApplianceSelected(a), SubmitStarted, DiagnosisSettled(Success(d)), SearchStarted]))
    ensures View(RunAsWritten(Initial(),
      [ApplianceSelected(a), SubmitStarted, DiagnosisSettled(Success(d)), SearchStarted,
       ResetPressed, SearchSettled(Success([t]))])) == Nothing
  {
    var s1 := NextAsWritten(Initial(), ApplianceSelected(a));
    var s2 := NextAsWritten(s1, SubmitStarted);
    var s3 := NextAsWritten(s2, DiagnosisSettled(Success(d)));
    var s4 := NextAsWritten(s3, SearchStarted);
    var s5 := NextAsWritten(s4, ResetPressed);
    var s6 := NextAsWritten(s5, SearchSettled(Success([t])));
    RunAsWrittenFirst(Initial(), ApplianceSelected(a), [SubmitStarted, DiagnosisSettled(Success(d)), SearchStarted]);
    RunAsWrittenFirst(s1, SubmitStarted, [DiagnosisSettled(Success(d)), SearchStarted]);
    RunAsWrittenFirst(s2, DiagnosisSettled(Success(d)), [SearchStarted]);
    RunAsWrittenFirst(s3, SearchStarted, []);
    RunAsWrittenFirst(Initial(), ApplianceSelected(a),
      [SubmitStarted, DiagnosisSettled(Success(d)), SearchStarted, ResetPressed, SearchSettled(Success([t]))]);
    RunAsWrittenFirst(s1, SubmitStarted, [DiagnosisSettled(Success(d)), SearchStarted, ResetPressed, SearchSettled(Success([t]))]);
    RunAsWrittenFirst(s2, DiagnosisSettled(Success(d)), [SearchStarted, ResetPressed, SearchSettled(Success([t]))]);
    RunAsWrittenFirst(s3, SearchStarted, [ResetPressed, SearchSettled(Success([t]))]);
    RunAsWrittenFirst(s4, ResetPressed, [SearchSettled(Success([t]))]);
    RunAsWrittenFirst(s5, SearchSettled(Success([t])), []);
    assert s6.step == ShowTechnicians && s6.selectedAppliance.None?;
  }

  /** `ServiceForm.handleSubmit` calls `onSubmit` only when `description.trim()` is not empty,
      that is when the description has a character that is not white space. */
  function FormSubmits(description: string): (submits: bool)
    ensures submits <==> exists i :: 0 <= i < |description| && !IsSpace(description[i])
  {
    TrimEmptyIffAllSpace(description);
    Trim(description) != []
  }

  /** `reader.result.split(',')[1]`: the data of an RFC 2397 `data:` URL, the text between the
      first and the second comma. */
  function DataUrlPayload(url: string): (r: Option<string>)
    ensures r.Some? <==> ',' in url
    ensures r.Some? ==> ',' !in r.value
  {
    CountZeroIff(url, ',');
    var pieces := Split(url, ',');
    if |pieces| > 1 then Some(pieces[1]) else None
  }

  /** A `data:` URL yields its payload, and a URL without a comma yields none. */
  lemma DataUrlPayloadOf(header: string, payload: string)
    requires ',' !in header && ',' !in payload
    ensures DataUrlPayload(header + "," + payload) == Some(payload)
    ensures DataUrlPayload(header) == None
  {
    SplitAtSeparator(header, ',', payload);
    SplitWithoutSeparator(payload, ',');
    SplitWithoutSeparator(header, ',');
  }

  /** The arguments `handleFormSubmit` passes to `diagnoseAppliance`. */
  datatype DiagnosisCall = DiagnosisCall(applianceName: string, description: string, image: Option<Gemini.ImagePayload>)

  /** The component's state, one field per `useState` hook; each handler assigns them in the
      order of its setters. */
  class App {
    var step: AppStep
    var selectedAppliance: Option<Appliance>
    var diagnosis: string
    var technicians: seq<Technician>
    var error: Option<string>
    var filterQuery: string
    var sortOption: SortOption

    function Snapshot(): State
      reads this
    {
      State(step, selectedAppliance, diagnosis, technicians, error, filterQuery, sortOption)
    }

    predicate Valid()
      reads this
    {
      ApplianceChosen(Snapshot())
    }

    constructor ()
      ensures Valid() && Snapshot() == Initial()
    {
      step := SelectAppliance;
      selectedAppliance := None;
      diagnosis := "";
      technicians := [];
      error := None;
      filterQuery := "";
      sortOption := Default;
    }

    method HandleApplianceSelect(appliance: Appliance)
      requires Valid()
      modifies this
      ensures Valid() && Snapshot() == Next(old(Snapshot()), ApplianceSelected(appliance))
    {
      selectedAppliance := Some(appliance);
      step := DescribeIssue;
    }

    /** The part of `handleFormSubmit` before its first `await`; returns the call it makes, if
        any. */
    method HandleFormSubmit(description: string, image: Option<Gemini.ImagePayload>)
      returns (call: Option<DiagnosisCall>)
      requires Valid()
      modifies this
      ensures Valid() && Snapshot() == Next(old(Snapshot()), SubmitStarted)
      ensures call.Some? <==> old(selectedAppliance).Some?
      ensures call.Some? ==> call.value == DiagnosisCall(old(selectedAppliance).value.name, description, image)
    {
      if selectedAppliance.None? {
        return None;
      }
      step := Diagnosing;
      error := None;
      call := Some(DiagnosisCall(selectedAppliance.value.name, description, image));
    }

    /** The rest of `handleFormSubmit`, once the file read and the diagnosis call have settled;
        ignored when no longer current. */
    method HandleDiagnosisSettled(outcome: Result<string, Option<string>>)
      requires Valid()
      modifies this
      ensures Valid() && Snapshot() == Next(old(Snapshot()), DiagnosisSettled(outcome))
    {
      if step != Diagnosing {
        return;
      }
      match outcome {
        case Success(d) =>
          diagnosis := d;
          step := ShowDiagnosis;
        case Failure(m) =>
          error := Some(ErrorText(m, UnknownError));
          step := DescribeIssue;
      }
    }

    /** The part of `handleFindTechnician` before the location request; returns the appliance
        name the search will use, if any. */
    method HandleFindTechnician() returns (applianceName: Option<string>)
      requires Valid()
      modifies this
      ensures Valid() && Snapshot() == Next(old(Snapshot()), SearchStarted)
      ensures applianceName.Some? <==> old(selectedAppliance).Some?
      ensures applianceName.Some? ==> applianceName.value == old(selectedAppliance).value.name
    {
      if selectedAppliance.None? {
        return None;
      }
      step := FindingTechnician;
      error := None;
      applianceName := Some(selectedAppliance.value.name);
    }

    /** The location request's error callback; ignored when no longer current. */
    method HandleLocationFailed()
      requires Valid()
      modifies this
      ensures Valid() && Snapshot() == Next(old(Snapshot()), LocationFailed)
    {
      if step != FindingTechnician {
        return;
      }
      error := Some(LocationError);
      step := ShowDiagnosis;
    }

    /** The location request's success callback, once the search has settled; ignored when no
        longer current. */
    method HandleSearchSettled(outcome: Result<seq<Technician>, Option<string>>)
      requires Valid()
      modifies this
      ensures Valid() && Snapshot() == Next(old(Snapshot()), SearchSettled(outcome))
    {
      if step != FindingTechnician {
        return;
      }
      match outcome {
        case Success(results) =>
          if results == [] {
            error := Some(NoTechniciansFound);
            step := ShowDiagnosis;
          } else {
            technicians := results;
            step := ShowTechnicians;
          }
        case Failure(m) =>
          error := Some(ErrorText(m, SearchError));
          step := ShowDiagnosis;
      }
    }

    method HandleReset()
      requires Valid()
      modifies this
      ensures Valid() && Snapshot() == Next(old(Snapshot()), ResetPressed)
      ensures Snapshot() == Initial()
    {
      step := SelectAppliance;
      selectedAppliance := None;
      diagnosis := "";
      technicians := [];
      error := None;
      filterQuery := "";
      sortOption := Default;
    }

    /** `filteredAndSortedTechnicians`, computed from the current fields: the technicians whose
        name or address includes the filter text, in the order received or sorted by name. */
    method ShownTechnicians() returns (r: seq<Technician>)
      ensures sortOption == Default ==> r == Technicians.FilterTechnicians(technicians, filterQuery)
      ensures sortOption == NameAz ==>
        Technicians.SortedByName(r) && multiset(r) == multiset(Technicians.FilterTechnicians(technicians, filterQuery))
    {
      r := Technicians.FilteredAndSorted(technicians, filterQuery, sortOption);
    }

    /** `onFilterChange={setFilterQuery}`. */
    method SetFilterQuery(query: string)
      requires Valid()
      modifies this
      ensures Valid() && Snapshot() == Next(old(Snapshot()), FilterChanged(query))
    {
      filterQuery := query;
    }

    /** `onSortChange={setSortOption}`. */
    method SetSortOption(option: SortOption)
      requires Valid()
      modifies this
      ensures Valid() && Snapshot() == Next(old(Snapshot()), SortChanged(option))
    {
      sortOption := option;
    }
  }
}
