/**
  The contact form: a four-field draft and the two flags `isSubmitting` and
  `isSubmitted`, driven by the field handlers, the submit handler and the two
  timers the submit handler starts (the 1500 ms "send" delay and the 5000 ms
  "reset" delay). Each timer is an explicit pending entry that a later event
  fires; elapsed time is not modelled.
 */
module ContactForm {
  import opened Wrappers

  datatype Field = Name | Email | Subject | Message

  /** The form's `formState` record. */
  datatype Draft = Draft(name: string, email: string, subject: string, message: string)
  {
    function Get(field: Field): string
    {
      match field
      case Name => name
      case Email => email
      case Subject => subject
      case Message => message
    }

    /** The draft after one field's `onValueChange` handler: that field replaced. */
    function With(field: Field, value: string): (d: Draft)
      ensures d.Get(field) == value
      ensures forall other :: other != field ==> d.Get(other) == Get(other)
    {
      match field
      case Name => this.(name := value)
      case Email => this.(email := value)
      case Subject => this.(subject := value)
      case Message => this.(message := value)
    }
  }

  const EmptyDraft := Draft("", "", "", "")

  /** The three phases the two flags encode. */
  datatype Status = Idle | Submitting | Submitted

  /** The phase that follows each phase. */
  function Next(status: Status): Status
  {
    match status
    case Idle => Submitting
    case Submitting => Submitted
    case Submitted => Idle
  }

  /**
    A snapshot of the component: its three state cells, the timers it has
    started and not yet run, and what it has written to the console.
   */
  datatype FormState = FormState(
    draft: Draft,
    isSubmitting: bool,
    isSubmitted: bool,
    pendingSend: Option<Draft>,  // the 1500 ms timer, with the draft its callback captured
    pendingReset: bool,          // the 5000 ms timer
    log: seq<Draft>)             // the payloads logged as "Form submitted:"

  /** The user and timer events the component reacts to. */
  datatype Event =
    | Edit(field: Field, value: string)
    | Submit
    | SendTimerFires
    | ResetTimerFires

  function StatusOf(s: FormState): Status
  {
    if s.isSubmitting then Submitting else if s.isSubmitted then Submitted else Idle
  }

  /** The state at mount: empty draft, both flags false, no timer, nothing logged. */
  function Initial(): (s: FormState)
    ensures Valid(s) && StatusOf(s) == Idle
    ensures s.draft == EmptyDraft && s.log == []
  {
    FormState(EmptyDraft, false, false, None, false, [])
  }

  /**
    What every reachable state satisfies: the flags are never both set, a
    send timer is pending exactly while submitting, a reset timer exactly
    while submitted, and the draft is empty while the success message shows.
   */
  ghost predicate Valid(s: FormState)
  {
    && !(s.isSubmitting && s.isSubmitted)
    && (s.isSubmitting <==> s.pendingSend.Some?)
    && (s.isSubmitted <==> s.pendingReset)
    && (s.isSubmitted ==> s.draft == EmptyDraft)
  }

  /** The form (its inputs and its button) is rendered unless the success message is. */
  predicate FormShown(s: FormState): (shown: bool)
    ensures StatusOf(s) == Idle ==> shown
    ensures StatusOf(s) == Submitted ==> !shown
  {
    !s.isSubmitted
  }

  /**
    When an event can happen: inputs only while the form is rendered, the
    submit button only while rendered and not loading, a timer only once started.
   */
  predicate Enabled(s: FormState, e: Event): (enabled: bool)
    ensures enabled && (e.Edit? || e.Submit?) ==> FormShown(s)
    ensures e.Submit? ==> (enabled <==> StatusOf(s) == Idle)
  {
    match e
    case Edit(_, _) => FormShown(s)
    case Submit => FormShown(s) && !s.isSubmitting
    case SendTimerFires => s.pendingSend.Some?
    case ResetTimerFires => s.pendingReset
  }

  /** The component's reaction to one event. */
  function Step(s: FormState, e: Event): (r: FormState)
    requires Enabled(s, e)
    ensures s.log <= r.log && (r.log != s.log <==> e.SendTimerFires?)
    ensures e.SendTimerFires? ==> r.draft == EmptyDraft && r.log[|s.log|] == s.pendingSend.value
    ensures e.Submit? || e.ResetTimerFires? ==> r.draft == s.draft
  {
    match e
    case Edit(field, value) =>
      s.(draft := s.draft.With(field, value))
    case Submit =>
      // no field check here: the handler only raises the flag and starts the timer
      s.(isSubmitting := true, pendingSend := Some(s.draft))
    case SendTimerFires =>
      s.(log := s.log + [s.pendingSend.value],
         isSubmitting := false, isSubmitted := true, draft := EmptyDraft,
         pendingSend := None, pendingReset := true)
    case ResetTimerFires =>
      s.(isSubmitted := false, pendingReset := false)
  }

  /** The submit button's label. */
  function ButtonLabel(s: FormState): (text: string)
    ensures text == "Sending..." <==> StatusOf(s) == Submitting
  {
    if s.isSubmitting then "Sending..." else "Send Message"
  }

  /** Every event of `events` is enabled when its turn comes. */
  predicate Allowed(s: FormState, events: seq<Event>)
    decreases |events|
  {
    events == [] || (Enabled(s, events[0]) && Allowed(Step(s, events[0]), events[1..]))
  }

  /** The state after an allowed sequence of events. */
  function Run(s: FormState, events: seq<Event>): FormState
    requires Allowed(s, events)
    decreases |events|
  {
    if events == [] then s else Run(Step(s, events[0]), events[1..])
  }

  // ---------------------------------------------------------------------
  // Properties
  // ---------------------------------------------------------------------

  /** One event keeps the invariant. */
  lemma StepKeepsValid(s: FormState, e: Event)
    requires Valid(s) && Enabled(s, e)
    ensures Valid(Step(s, e))
  {
  }

  /** Every state reachable from mount satisfies the invariant. */
  lemma {:induction false} ReachableStatesValid(events: seq<Event>)
    requires Allowed(Initial(), events)
    ensures Valid(Run(Initial(), events))
  {
    RunKeepsValid(Initial(), events);
  }

  lemma {:induction false} RunKeepsValid(s: FormState, events: seq<Event>)
    requires Valid(s) && Allowed(s, events)
    ensures Valid(Run(s, events))
    decreases |events|
  {
    if events != [] {
      StepKeepsValid(s, events[0]);
      RunKeepsValid(Step(s, events[0]), events[1..]);
    }
  }

  /**
    The phases follow idle, submitting, submitted, idle with no skipping:
    an edit keeps the phase, every other event moves to the next one.
   */
  lemma StatusAdvancesInOrder(s: FormState, e: Event)
    requires Valid(s) && Enabled(s, e)
    ensures e.Edit? ==> StatusOf(Step(s, e)) == StatusOf(s)
    ensures !e.Edit? ==> StatusOf(Step(s, e)) == Next(StatusOf(s))
  {
  }

  /** Editing changes the edited field and leaves the other three as they were. */
  lemma EditChangesOneField(s: FormState, field: Field, value: string, other: Field)
    requires Enabled(s, Edit(field, value))
    ensures Step(s, Edit(field, value)).draft.Get(field) == value
    ensures other != field ==> Step(s, Edit(field, value)).draft.Get(other) == s.draft.Get(other)
    ensures StatusOf(Step(s, Edit(field, value))) == StatusOf(s)
  {
  }

  /** Only edits, each allowed while the form is rendered. */
  predicate AllEdits(events: seq<Event>)
  {
    forall i :: 0 <= i < |events| ==> events[i].Edit?
  }

  /**
    Edits while submitting are accepted, but they change neither the
    pending send nor the phase nor the log.
   */
  lemma {:induction false} EditsWhileSubmitting(s: FormState, edits: seq<Event>)
    requires Valid(s) && StatusOf(s) == Submitting && AllEdits(edits)
    ensures Allowed(s, edits)
    ensures Run(s, edits).pendingSend == s.pendingSend
    ensures StatusOf(Run(s, edits)) == Submitting && Run(s, edits).log == s.log
    ensures Valid(Run(s, edits))
    decreases |edits|
  {
    if edits != [] {
      var t := Step(s, edits[0]);
      assert AllEdits(edits[1..]) by {
        forall i | 0 <= i < |edits[1..]| ensures edits[1..][i].Edit? {
          assert edits[1..][i] == edits[i + 1];
        }
      }
      EditsWhileSubmitting(t, edits[1..]);
    }
  }

  /**
    The logged payload is the draft at the moment submit was pressed, not a
    later edit; afterwards the success message shows and the draft is empty.
   */
  lemma {:induction false} LogsDraftAtSubmit(s: FormState, edits: seq<Event>)
    requires Valid(s) && StatusOf(s) == Idle && AllEdits(edits)
    ensures Allowed(s, [Submit] + edits + [SendTimerFires])
    ensures Run(s, [Submit] + edits + [SendTimerFires]).log == s.log + [s.draft]
    ensures Run(s, [Submit] + edits + [SendTimerFires]).draft == EmptyDraft
    ensures StatusOf(Run(s, [Submit] + edits + [SendTimerFires])) == Submitted
  {
    var t := Step(s, Submit);
    EditsWhileSubmitting(t, edits);
    RunAppend(t, edits, [SendTimerFires]);
    assert ([Submit] + edits + [SendTimerFires])[1..] == edits + [SendTimerFires];
  }

  /** Running two event sequences one after the other is running their concatenation. */
  lemma {:induction false} RunAppend(s: FormState, first: seq<Event>, second: seq<Event>)
    requires Allowed(s, first) && Allowed(Run(s, first), second)
    ensures Allowed(s, first + second)
    ensures Run(s, first + second) == Run(Run(s, first), second)
    decreases |first|
  {
    if first == [] {
      assert first + second == second;
    } else {
      assert (first + second)[0] == first[0];
      assert (first + second)[1..] == first[1..] + second;
      RunAppend(Step(s, first[0]), first[1..], second);
    }
  }

  /** The reset timer brings the form back, empty, ready for another message. */
  lemma ResetShowsEmptyForm(s: FormState)
    requires Valid(s) && Enabled(s, ResetTimerFires)
    ensures FormShown(Step(s, ResetTimerFires)) && StatusOf(Step(s, ResetTimerFires)) == Idle
    ensures Step(s, ResetTimerFires).draft == EmptyDraft
  {
  }

  // ---------------------------------------------------------------------
  // Component state
  // ---------------------------------------------------------------------

  /** The mounted component: its state cells, started timers and console output. */
  class Form {
    var formState: Draft
    var isSubmitting: bool
    var isSubmitted: bool
    var pendingSend: Option<Draft>
    var pendingReset: bool
    var log: seq<Draft>

    function State(): FormState
      reads this
    {
      FormState(formState, isSubmitting, isSubmitted, pendingSend, pendingReset, log)
    }

    constructor ()
      ensures State() == Initial()
    {
      formState := EmptyDraft;
      isSubmitting, isSubmitted := false, false;
      pendingSend, pendingReset := None, false;
      log := [];
    }

    /** One of the four `onValueChange` handlers: replace that field of the draft. */
    method ChangeField(field: Field, value: string)
      requires Enabled(State(), Edit(field, value))
      modifies this
      ensures formState == old(formState).With(field, value)
      ensures State() == Step(old(State()), Edit(field, value))
    {
      formState := formState.With(field, value);
    }

    /** `handleSubmit`: raise the flag and start the send timer, capturing the draft. */
    method HandleSubmit()
      requires Enabled(State(), Submit)
      modifies this
      ensures isSubmitting && pendingSend == Some(old(formState))
      ensures State() == Step(old(State()), Submit)
    {
      isSubmitting := true;
      pendingSend := Some(formState);
    }

    /** The send timer's callback: log, flip both flags, clear the draft, start the reset timer. */
    method SendTimerCallback()
      requires Enabled(State(), SendTimerFires)
      modifies this
      ensures log == old(log) + [old(pendingSend).value]
      ensures !isSubmitting && isSubmitted && formState == EmptyDraft
      ensures State() == Step(old(State()), SendTimerFires)
    {
      var captured := pendingSend.value;
      pendingSend := None;
      log := log + [captured];
      isSubmitting := false;
      isSubmitted := true;
      formState := EmptyDraft;
      pendingReset := true;
    }

    /** The reset timer's callback: hide the success message. */
    method ResetTimerCallback()
      requires Enabled(State(), ResetTimerFires)
      modifies this
      ensures !isSubmitted && formState == old(formState)
      ensures State() == Step(old(State()), ResetTimerFires)
    {
      pendingReset := false;
      isSubmitted := false;
    }
  }
}
