// The three-step booking wizard and its confirmation screen. The state is
// four cells (step, selected service, date and time) plus the submitted
// details; the handlers change them one step at a time.
module BookingForm {
  import opened Results
  import opened Types
  import opened Lookup
  import Data
  import ServicesPage
  import opened Strings

  const TimeSlots: seq<string> := [
    "09:00 AM", "10:00 AM", "11:00 AM", "12:00 PM",
    "02:00 PM", "03:00 PM", "04:00 PM", "05:00 PM"
  ]

  const Titles: seq<string> := ["Select a Service", "Choose Date & Time", "Your Details"]

  /** The values of the details form. */
  datatype Details = Details(name: string, email: string, phone: string)

  /** The form schema: a name of at least 2 characters, a well-formed email
      (`emailOk`, the email check itself is not modelled) and a phone of at
      least 10 characters, both lengths counted as JavaScript does, in UTF-16
      code units. In code points, two always suffice for the name and ten for
      the phone, and one and five are always needed. */
  function DetailsValid(d: Details, emailOk: bool): (ok: bool)
    ensures ok ==> emailOk && |d.name| >= 1 && |d.phone| >= 5
    ensures emailOk && |d.name| >= 2 && |d.phone| >= 10 ==> ok
  {
    Utf16Length(d.name) >= 2 && emailOk && Utf16Length(d.phone) >= 10
  }

  /** A name made of one character outside the Basic Multilingual Plane
      (an emoji) is two UTF-16 units long and passes the name rule. */
  lemma AstralNamePasses(d: Details)
    requires d.name == ['\U{1F600}'] && |d.phone| >= 10
    ensures DetailsValid(d, true)
  {
    assert Utf16Length(d.name) == 2 + Utf16Length([]);
  }

  /** The wizard's state. `date` is the chosen day as a timestamp. */
  datatype Wizard = Wizard(
    step: int, service: Option<Service>, date: Option<int>, time: Option<string>,
    submitted: Option<Details>)

  /** What every reachable state satisfies: the step is 1 to 4, a service is
      chosen from step 2 on, a date and a slot from step 3 on, the chosen
      service is one of the catalogue's and the slot one of the fixed eight,
      and details are recorded exactly on the confirmation step, and only
      ones that passed the length rules. */
  predicate Valid(w: Wizard) {
    1 <= w.step <= 4 &&
    (w.step >= 2 ==> w.service.Some?) &&
    (w.step >= 3 ==> w.date.Some? && w.time.Some?) &&
    (w.service.Some? ==> w.service.value in Data.Services) &&
    (w.time.Some? ==> w.time.value in TimeSlots) &&
    (w.step == 4 <==> w.submitted.Some?) &&
    (w.submitted.Some? ==> Utf16Length(w.submitted.value.name) >= 2 && Utf16Length(w.submitted.value.phone) >= 10)
  }

  /** Step 1, nothing selected. */
  function Initial(): (w: Wizard)
    ensures Valid(w) && w.step == 1
    ensures w.service.None? && w.date.None? && w.time.None? && w.submitted.None?
  {
    Wizard(1, None, None, None, None)
  }

  /** The `service` query parameter preselects a service, without moving the
      step, when it is non-empty and names a catalogue service; otherwise
      nothing changes. */
  function Preselect(w: Wizard, param: Option<string>): (r: Wizard)
    requires Valid(w)
    ensures Valid(r)
    ensures r == w.(service := r.service)
    ensures r.service != w.service ==>
      param.Some? && param.value != "" && r.service.Some? &&
      r.service.value in Data.Services && r.service.value.id == param.value
    ensures param.Some? && param.value != "" && HasId(Data.Services, ServiceId, param.value) ==>
      r.service.Some? && r.service.value.id == param.value
    ensures (param.None? || param.value == "" || !HasId(Data.Services, ServiceId, param.value)) ==> r == w
  {
    if param.Some? && param.value != "" then
      var found := Find(Data.Services, ServiceId, param.value);
      if found.Some? then w.(service := found) else w
    else w
  }

  /** Choosing a service on step 1: it becomes the selection and the step
      advances by exactly one. */
  function SelectService(w: Wizard, s: Service): (r: Wizard)
    requires Valid(w) && w.step == 1 && s in Data.Services
    ensures Valid(r)
    ensures r == w.(service := Some(s), step := w.step + 1)
  {
    w.(service := Some(s), step := w.step + 1)
  }

  /** The calendar's selection on step 2; clicking the chosen day again
      clears it. The step does not move. */
  function SelectDate(w: Wizard, day: Option<int>): (r: Wizard)
    requires Valid(w) && w.step == 2
    ensures Valid(r)
    ensures r == w.(date := day)
  {
    w.(date := day)
  }

  /** The slots offered on the current screen: the fixed eight, shown only on
      step 2 once a date is chosen. */
  function VisibleTimeSlots(w: Wizard): (slots: seq<string>)
    ensures |slots| == 0 || |slots| == 8
    ensures slots != [] <==> w.step == 2 && w.date.Some?
    ensures slots != [] ==> slots == TimeSlots
  {
    if w.step == 2 && w.date.Some? then TimeSlots else []
  }

  /** Choosing a visible slot: it becomes the selection and the step advances
      by exactly one. */
  function SelectTime(w: Wizard, t: string): (r: Wizard)
    requires Valid(w) && t in VisibleTimeSlots(w)
    ensures Valid(r) && r.step == 3
    ensures r == w.(time := Some(t), step := w.step + 1)
  {
    w.(time := Some(t), step := w.step + 1)
  }

  /** "Go Back" is disabled on step 1 and not shown on step 4. */
  predicate CanGoBack(w: Wizard) {
    w.step == 2 || w.step == 3
  }

  /** Going back lowers the step by exactly one, and never below 1. */
  function GoBack(w: Wizard): (r: Wizard)
    requires Valid(w) && CanGoBack(w)
    ensures Valid(r) && r.step >= 1
    ensures r == w.(step := w.step - 1)
  {
    w.(step := w.step - 1)
  }

  /** Submitting the details on step 3: the handler runs only for values
      that pass the schema, and then moves to the confirmation step; invalid
      values leave the state unchanged. */
  function Submit(w: Wizard, d: Details, emailOk: bool): (r: Wizard)
    requires Valid(w) && w.step == 3
    ensures Valid(r)
    ensures r.step == 4 <==> DetailsValid(d, emailOk)
    ensures r.step == 4 ==> r == w.(step := 4, submitted := Some(d))
    ensures r.step != 4 ==> r == w
  {
    if DetailsValid(d, emailOk) then w.(step := 4, submitted := Some(d)) else w
  }

  /** "Book Another Service" on the confirmation screen: back to the initial
      state, with the details form cleared. */
  function BookAnother(w: Wizard): (r: Wizard)
    requires Valid(w) && w.step == 4
    ensures r == Initial()
  {
    Initial()
  }

  /** The user's actions on the wizard. */
  datatype Event =
    | QueryParam(param: Option<string>)
    | ChooseService(s: Service)
    | ChooseDate(day: Option<int>)
    | ChooseTime(t: string)
    | Back
    | SubmitDetails(d: Details, emailOk: bool)
    | Again

  /** Whether the screen for `w` offers the action `e`. */
  predicate Enabled(w: Wizard, e: Event) {
    match e
    case QueryParam(_) => true
    case ChooseService(s) => w.step == 1 && s in Data.Services
    case ChooseDate(_) => w.step == 2
    case ChooseTime(t) => t in VisibleTimeSlots(w)
    case Back => CanGoBack(w)
    case SubmitDetails(_, _) => w.step == 3
    case Again => w.step == 4
  }

  function Apply(w: Wizard, e: Event): (r: Wizard)
    requires Valid(w) && Enabled(w, e)
    ensures Valid(r)
  {
    match e
    case QueryParam(p) => Preselect(w, p)
    case ChooseService(s) => SelectService(w, s)
    case ChooseDate(day) => SelectDate(w, day)
    case ChooseTime(t) => SelectTime(w, t)
    case Back => GoBack(w)
    case SubmitDetails(d, ok) => Submit(w, d, ok)
    case Again => BookAnother(w)
  }

  /** Runs the enabled prefix of `events` from `w`, stopping at the first
      action the screen does not offer. */
  function Run(w: Wizard, events: seq<Event>): (r: Wizard)
    requires Valid(w)
    decreases |events|
  {
    if events == [] || !Enabled(w, events[0]) then w
    else Run(Apply(w, events[0]), events[1..])
  }

  /** Every state the wizard can reach from its initial state is valid: the
      step stays within 1 to 4 and the selections it needs are present. */
  lemma {:induction false} RunStaysValid(w: Wizard, events: seq<Event>)
    requires Valid(w)
    ensures Valid(Run(w, events))
    ensures 1 <= Run(w, events).step <= 4
    decreases |events|
  {
    if events != [] && Enabled(w, events[0]) {
      RunStaysValid(Apply(w, events[0]), events[1..]);
    }
  }

  /** The header of steps 1 to 3: the title, the three progress segments and
      the two connectors between them. */
  datatype StepHeader = StepHeader(title: string, segments: seq<bool>, connectors: seq<bool>)

  function Header(step: int): (h: StepHeader)
    requires 1 <= step <= 3
    ensures h.title == Titles[step - 1]
    ensures |h.segments| == 3 && |h.connectors| == 2
    ensures forall i :: 0 <= i < 3 ==> (h.segments[i] <==> i + 1 <= step)
    ensures forall i :: 0 <= i < 2 ==> (h.connectors[i] <==> i + 1 < step)
  {
    StepHeader(Titles[step - 1], [1 <= step, 2 <= step, 3 <= step], [1 < step, 2 < step])
  }

  function CountTrue(bs: seq<bool>): nat {
    if bs == [] then 0 else (if bs[0] then 1 else 0) + CountTrue(bs[1..])
  }

  /** On step `step` exactly `step` segments are filled, all at the start. */
  lemma FilledSegments(step: int)
    requires 1 <= step <= 3
    ensures CountTrue(Header(step).segments) == step
    ensures Header(step).segments[0]
  {
    var h := Header(step);
    assert h.segments[1..][1..][1..] == [];
  }

  /** The "Book Now" link of a catalogue service carries its id, and that id
      preselects the very same service. */
  lemma BookNowPreselects(k: int)
    requires 0 <= k < |Data.Services|
    ensures Preselect(Initial(), Some(ServicesPage.BookLink(Data.Services[k].id)[|ServicesPage.BookPrefix|..])).service
      == Some(Data.Services[k])
  {
    Data.FindCatalogueService(k);
    assert Data.Services[k].id != "" by {
      assert |Data.Services[k].id| == 7;
    }
  }

  /** The wizard's state cells. */
  class BookingFormState {
    var step: int
    var selectedService: Option<Service>
    var selectedDate: Option<int>
    var selectedTime: Option<string>
    var submitted: Option<Details>

    function State(): Wizard
      reads this
    {
      Wizard(step, selectedService, selectedDate, selectedTime, submitted)
    }

    constructor ()
      ensures State() == Initial()
    {
      step := 1;
      selectedService := None;
      selectedDate := None;
      selectedTime := None;
      submitted := None;
    }

    /** The effect that reads the `service` query parameter. */
    method PreselectFromQuery(param: Option<string>)
      requires Valid(State())
      modifies this
      ensures State() == Preselect(old(State()), param)
    {
      if param.Some? && param.value != "" {
        var service := Find(Data.Services, ServiceId, param.value);
        if service.Some? {
          selectedService := service;
        }
      }
    }

    method NextStep()
      modifies this
      ensures State() == old(State()).(step := old(step) + 1)
    {
      step := step + 1;
    }

    method PrevStep()
      requires Valid(State()) && CanGoBack(State())
      modifies this
      ensures State() == GoBack(old(State()))
    {
      step := step - 1;
    }

    method HandleServiceSelect(s: Service)
      requires Valid(State()) && step == 1 && s in Data.Services
      modifies this
      ensures State() == SelectService(old(State()), s)
    {
      selectedService := Some(s);
      NextStep();
    }

    method HandleDateSelect(day: Option<int>)
      requires Valid(State()) && step == 2
      modifies this
      ensures State() == SelectDate(old(State()), day)
    {
      selectedDate := day;
    }

    method HandleTimeSelect(t: string)
      requires Valid(State()) && t in VisibleTimeSlots(State())
      modifies this
      ensures State() == SelectTime(old(State()), t)
    {
      selectedTime := Some(t);
      NextStep();
    }

    /** The form's submit: the handler runs only when the schema passes. */
    method OnSubmit(d: Details, emailOk: bool)
      requires Valid(State()) && step == 3
      modifies this
      ensures State() == Submit(old(State()), d, emailOk)
    {
      if DetailsValid(d, emailOk) {
        submitted := Some(d);
        step := 4;
      }
    }

    method Reset()
      requires Valid(State()) && step == 4
      modifies this
      ensures State() == BookAnother(old(State()))
    {
      step := 1;
      selectedService := None;
      selectedDate := None;
      selectedTime := None;
      submitted := None;
    }
  }
}
