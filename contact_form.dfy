/**
 * The contact page's submission controller: the state flags `isSubmitted`,
 * `isSending`, `submitError` and the detached `interest` selection, the submit
 * handler that shapes the payload, guards on the relay's public key and makes
 * one call to the email relay, and the render guards that decide when the user
 * can submit at all.
 *
 * The handler is specified by the sequence of state updates and relay calls it
 * performs (`SubmitEffects`), replayed over the page state (`Replay`); the
 * class `ContactPage` performs the same steps on its fields.
 */
module ContactForm {
  import opened Wrappers
  import opened ContactPayload

  /** The relay's service and template identifiers. */
  const ServiceId: string := "service_eldl2of"
  const TemplateId: string := "template_vpsj3xc"

  /** The error shown when the relay's public key is not configured. */
  const NotConfiguredMessage: string :=
    "Email is not configured. Please set VITE_EMAILJS_PUBLIC_KEY."

  /** The error shown when the relay call fails. */
  const RelayFailedMessage: string :=
    "Something went wrong. Please try again or email us directly."

  /** One call to the email relay: the identifiers, the template variables by
      their names on the wire, and the public key. */
  datatype RelayRequest = RelayRequest(
    serviceId: string,
    templateId: string,
    params: map<string, string>,
    publicKey: string)

  /** How the relay answers a call: it resolves, or it throws. */
  datatype RelayOutcome = Delivered | Rejected

  /** The public key is read from the environment and tested with `!publicKey`:
      an unset key and an empty key both count as missing. */
  predicate Configured(publicKey: Option<string>)
  {
    publicKey.Some? && publicKey.value != ""
  }

  /** The page's state: the three flags and the selector's value. */
  datatype FormState = FormState(
    isSubmitted: bool,
    isSending: bool,
    submitError: Option<string>,
    interest: string)

  /** The state when the page mounts. */
  const Initial: FormState := FormState(false, false, None, "")

  /** One step of the submit handler: a state update, or the relay call. */
  datatype Effect =
    | SetSubmitError(error: Option<string>)
    | SetSending(sending: bool)
    | SetSubmitted(submitted: bool)
    | CallRelay(request: RelayRequest)

  function Apply(s: FormState, e: Effect): FormState
  {
    match e
    case SetSubmitError(err) => s.(submitError := err)
    case SetSending(b) => s.(isSending := b)
    case SetSubmitted(b) => s.(isSubmitted := b)
    case CallRelay(_) => s
  }

  /** The state after performing `effects` in order, starting from `s`. */
  function Replay(s: FormState, effects: seq<Effect>): FormState
    decreases |effects|
  {
    if effects == [] then s else Replay(Apply(s, effects[0]), effects[1..])
  }

  /** The relay calls among `effects`, in order. */
  function RelayCalls(effects: seq<Effect>): seq<RelayRequest>
    decreases |effects|
  {
    if effects == [] then []
    else if effects[0].CallRelay? then [effects[0].request] + RelayCalls(effects[1..])
    else RelayCalls(effects[1..])
  }

  /** What the submit handler does, step by step, when the form holds `form`,
      the selector holds `selected`, the environment holds `publicKey` and the
      relay answers `outcome` (an answer that is only consulted if the relay is
      called). */
  function SubmitEffects(form: FormFields, selected: string, publicKey: Option<string>,
                         outcome: RelayOutcome): (r: seq<Effect>)
    ensures |r| > 0 && r[0] == SetSubmitError(None)
  {
    var params := ToTemplateVariables(BuildTemplateParams(form, selected));
    [SetSubmitError(None)] +
    if !Configured(publicKey) then
      [SetSubmitError(Some(NotConfiguredMessage))]
    else
      [SetSending(true),
       CallRelay(RelayRequest(ServiceId, TemplateId, params, publicKey.value))] +
      (match outcome
       case Delivered => [SetSubmitted(true)]
       case Rejected => [SetSubmitError(Some(RelayFailedMessage))]) +
      [SetSending(false)]
  }

  /** Performing `e` and then `rest`. */
  lemma ReplayCons(s: FormState, e: Effect, rest: seq<Effect>)
    ensures Replay(s, [e] + rest) == Replay(Apply(s, e), rest)
  {
  }

  lemma RelayCallsCons(e: Effect, rest: seq<Effect>)
    ensures RelayCalls([e] + rest)
      == (if e.CallRelay? then [e.request] else []) + RelayCalls(rest)
  {
  }

  /** The steps of a submit with a configured key, written out. */
  lemma ConfiguredSubmitSteps(form: FormFields, selected: string, publicKey: Option<string>,
                              outcome: RelayOutcome)
    requires Configured(publicKey)
    ensures SubmitEffects(form, selected, publicKey, outcome)
      == [SetSubmitError(None), SetSending(true),
          CallRelay(RelayRequest(ServiceId, TemplateId, ToTemplateVariables(BuildTemplateParams(form, selected)),
                                 publicKey.value)),
          if outcome == Delivered then SetSubmitted(true)
          else SetSubmitError(Some(RelayFailedMessage)),
          SetSending(false)]
  {
  }

  /** The relay is called exactly once when the key is configured, with the
      fixed service and template identifiers, the shaped payload and the key;
      it is never called otherwise, and nothing is retried. */
  lemma SubmitCallsRelayAtMostOnce(form: FormFields, selected: string,
                                   publicKey: Option<string>, outcome: RelayOutcome)
    ensures RelayCalls(SubmitEffects(form, selected, publicKey, outcome))
      == if Configured(publicKey)
         then [RelayRequest(ServiceId, TemplateId,
                            ToTemplateVariables(BuildTemplateParams(form, selected)),
                            publicKey.value)]
         else []
  {
    var r := SubmitEffects(form, selected, publicKey, outcome);
    if Configured(publicKey) {
      ConfiguredSubmitSteps(form, selected, publicKey, outcome);
      RelayCallsCons(r[0], r[1..]);
      RelayCallsCons(r[1], r[2..]);
      RelayCallsCons(r[2], r[3..]);
      RelayCallsCons(r[3], r[4..]);
      RelayCallsCons(r[4], r[5..]);
      assert r == [r[0]] + r[1..];
      assert r[1..] == [r[1]] + r[2..];
      assert r[2..] == [r[2]] + r[3..];
      assert r[3..] == [r[3]] + r[4..];
      assert r[4..] == [r[4]] + r[5..];
    } else {
      assert r == [r[0]] + ([r[1]] + []);
      RelayCallsCons(r[0], [r[1]]);
      RelayCallsCons(r[1], []);
    }
  }

  /** Without a key the handler clears the old error, then sets the
      configuration error: the relay is not called, `isSending` is never set,
      and nothing else changes. */
  lemma SubmitWithoutKey(s: FormState, form: FormFields, selected: string,
                         publicKey: Option<string>, outcome: RelayOutcome)
    requires !Configured(publicKey)
    ensures var r := SubmitEffects(form, selected, publicKey, outcome);
      && Replay(s, r) == s.(submitError := Some(NotConfiguredMessage))
      && RelayCalls(r) == []
      && forall i | 0 <= i < |r| :: !r[i].SetSending?
  {
    var r := SubmitEffects(form, selected, publicKey, outcome);
    SubmitCallsRelayAtMostOnce(form, selected, publicKey, outcome);
    assert r == [r[0]] + ([r[1]] + []);
    ReplayCons(s, r[0], [r[1]]);
    ReplayCons(Apply(s, r[0]), r[1], []);
  }

  /** The state a configured submit leaves, whatever the relay answers. */
  lemma ConfiguredSubmitState(s: FormState, form: FormFields, selected: string,
                              publicKey: Option<string>, outcome: RelayOutcome)
    requires Configured(publicKey)
    ensures Replay(s, SubmitEffects(form, selected, publicKey, outcome))
      == if outcome == Delivered
         then s.(isSubmitted := true, isSending := false, submitError := None)
         else s.(isSending := false, submitError := Some(RelayFailedMessage))
  {
    var r := SubmitEffects(form, selected, publicKey, outcome);
    ConfiguredSubmitSteps(form, selected, publicKey, outcome);
    assert r == [r[0]] + r[1..];
    assert r[1..] == [r[1]] + r[2..];
    assert r[2..] == [r[2]] + r[3..];
    assert r[3..] == [r[3]] + r[4..];
    assert r[4..] == [r[4]] + r[5..];
    var s1 := Apply(s, r[0]);
    var s2 := Apply(s1, r[1]);
    var s3 := Apply(s2, r[2]);
    var s4 := Apply(s3, r[3]);
    ReplayCons(s, r[0], r[1..]);
    ReplayCons(s1, r[1], r[2..]);
    ReplayCons(s2, r[2], r[3..]);
    ReplayCons(s3, r[3], r[4..]);
    ReplayCons(s4, r[4], r[5..]);
  }

  /** With a key and a relay that resolves, the form is submitted, not
      sending, and shows no error. */
  lemma SubmitDelivered(s: FormState, form: FormFields, selected: string,
                        publicKey: Option<string>)
    requires Configured(publicKey)
    ensures Replay(s, SubmitEffects(form, selected, publicKey, Delivered))
      == s.(isSubmitted := true, isSending := false, submitError := None)
  {
    ConfiguredSubmitState(s, form, selected, publicKey, Delivered);
  }

  /** With a key and a relay that throws, the generic error is shown, the form
      is not sending, and `isSubmitted` keeps its value. */
  lemma SubmitRejected(s: FormState, form: FormFields, selected: string,
                       publicKey: Option<string>)
    requires Configured(publicKey)
    ensures Replay(s, SubmitEffects(form, selected, publicKey, Rejected))
      == s.(isSending := false, submitError := Some(RelayFailedMessage))
  {
    ConfiguredSubmitState(s, form, selected, publicKey, Rejected);
  }

  /** While the relay call is in flight the form is marked as sending, so its
      submit button is disabled. */
  lemma SendingDuringRelayCall(s: FormState, form: FormFields, selected: string,
                               publicKey: Option<string>, outcome: RelayOutcome)
    ensures var r := SubmitEffects(form, selected, publicKey, outcome);
      forall k | 0 <= k < |r| && r[k].CallRelay? :: Replay(s, r[..k]).isSending
  {
    var r := SubmitEffects(form, selected, publicKey, outcome);
    if Configured(publicKey) {
      ConfiguredSubmitSteps(form, selected, publicKey, outcome);
      assert r[..2] == [r[0]] + ([r[1]] + []);
      ReplayCons(s, r[0], [r[1]]);
      ReplayCons(Apply(s, r[0]), r[1], []);
    }
  }

  /** What the user can do on the contact page. */
  datatype Event =
    | Select(value: string)
    | Submit(form: FormFields, publicKey: Option<string>, outcome: RelayOutcome)

  /** When the page lets the event happen. The selector offers only its five
      options; both controls are part of the form, which the confirmation
      replaces once submitted; the submit button is disabled while sending. */
  predicate Enabled(s: FormState, ev: Event)
  {
    match ev
    case Select(v) => !s.isSubmitted && v in InterestOptions
    case Submit(_, _, _) => !s.isSubmitted && !s.isSending
  }

  /** The state after the event. The handler reads the selection as it is when
      the form is submitted. */
  function Step(s: FormState, ev: Event): FormState
  {
    match ev
    case Select(v) => s.(interest := v)
    case Submit(form, key, outcome) => Replay(s, SubmitEffects(form, s.interest, key, outcome))
  }

  /** The relay calls the event makes. */
  function StepCalls(s: FormState, ev: Event): seq<RelayRequest>
  {
    match ev
    case Select(_) => []
    case Submit(form, key, outcome) => RelayCalls(SubmitEffects(form, s.interest, key, outcome))
  }

  /** What holds of the page between events: it is not sending, a submitted
      form shows no error, and the selection is empty or one of the options. */
  predicate Consistent(s: FormState)
  {
    && !s.isSending
    && (s.isSubmitted ==> s.submitError == None)
    && (s.interest == "" || s.interest in InterestOptions)
  }

  lemma InitialConsistent()
    ensures Consistent(Initial)
  {
  }

  /** Every event the page allows keeps it consistent. */
  lemma StepPreservesConsistent(s: FormState, ev: Event)
    requires Consistent(s) && Enabled(s, ev)
    ensures Consistent(Step(s, ev))
  {
    match ev
    case Select(_) =>
    case Submit(form, key, outcome) =>
      if !Configured(key) {
        SubmitWithoutKey(s, form, s.interest, key, outcome);
      } else if outcome == Delivered {
        SubmitDelivered(s, form, s.interest, key);
      } else {
        SubmitRejected(s, form, s.interest, key);
      }
  }

  /** Once submitted, the page allows no further event: the confirmation is final. */
  lemma SubmittedIsFinal(s: FormState, ev: Event)
    requires s.isSubmitted
    ensures !Enabled(s, ev)
  {
  }

  /** A submit that did not deliver (no key, or a relay that threw) leaves the
      form on screen and the button enabled: the user can submit again. */
  lemma FailedSubmitAllowsRetry(s: FormState, ev: Event, next: Event)
    requires Consistent(s) && Enabled(s, ev) && ev.Submit? && next.Submit?
    requires !(Configured(ev.publicKey) && ev.outcome == Delivered)
    ensures Enabled(Step(s, ev), next)
  {
    if !Configured(ev.publicKey) {
      SubmitWithoutKey(s, ev.form, s.interest, ev.publicKey, ev.outcome);
    } else {
      SubmitRejected(s, ev.form, s.interest, ev.publicKey);
    }
  }

  /** A worked example: a filled-in form with a configured key and a relay
      that resolves. */
  lemma DeliveredExample()
    ensures var form := map["firstName" := "Ann", "lastName" := "Lee",
                            "email" := "ann@example.com", "phone" := "",
                            "interest" := "taster", "message" := ""];
      var ev := Submit(form, Some("key"), Delivered);
      && Step(Initial, ev) == FormState(true, false, None, "")
      && StepCalls(Initial, ev)
         == [RelayRequest(ServiceId, TemplateId,
                          map["first_name" := "Ann", "last_name" := "Lee",
                              "email" := "ann@example.com", "phone" := "",
                              "interest" := "taster", "message" := ""],
                          "key")]
  {
    var form := map["firstName" := "Ann", "lastName" := "Lee",
                    "email" := "ann@example.com", "phone" := "",
                    "interest" := "taster", "message" := ""];
    SubmitDelivered(Initial, form, "", Some("key"));
    SubmitCallsRelayAtMostOnce(form, "", Some("key"), Delivered);
  }

  /** A run of events, each allowed in the state the previous ones left. */
  predicate AllowedRun(s: FormState, evs: seq<Event>)
    decreases |evs|
  {
    evs == [] || (Enabled(s, evs[0]) && AllowedRun(Step(s, evs[0]), evs[1..]))
  }

  function RunState(s: FormState, evs: seq<Event>): FormState
    decreases |evs|
  {
    if evs == [] then s else RunState(Step(s, evs[0]), evs[1..])
  }

  /** How many of the run's events made a relay call that was delivered. */
  function DeliveredCount(s: FormState, evs: seq<Event>): nat
    decreases |evs|
  {
    if evs == [] then 0
    else
      var ev := evs[0];
      (if ev.Submit? && Configured(ev.publicKey) && ev.outcome == Delivered then 1 else 0)
      + DeliveredCount(Step(s, ev), evs[1..])
  }

  /** Any run the page allows stays consistent. */
  lemma {:induction false} AllowedRunConsistent(s: FormState, evs: seq<Event>)
    requires Consistent(s) && AllowedRun(s, evs)
    ensures Consistent(RunState(s, evs))
    decreases |evs|
  {
    if evs != [] {
      StepPreservesConsistent(s, evs[0]);
      AllowedRunConsistent(Step(s, evs[0]), evs[1..]);
    }
  }

  /** A mounted page delivers at most one message: after the first delivered
      call the form is gone, and before it every call failed. */
  lemma {:induction false} AtMostOneDelivery(s: FormState, evs: seq<Event>)
    requires Consistent(s) && AllowedRun(s, evs)
    ensures DeliveredCount(s, evs) <= (if s.isSubmitted then 0 else 1)
    decreases |evs|
  {
    if evs != [] {
      var ev := evs[0];
      StepPreservesConsistent(s, ev);
      if ev.Submit? {
        var key := ev.publicKey;
        if !Configured(key) {
          SubmitWithoutKey(s, ev.form, s.interest, key, ev.outcome);
        } else if ev.outcome == Delivered {
          SubmitDelivered(s, ev.form, s.interest, key);
        } else {
          SubmitRejected(s, ev.form, s.interest, key);
        }
      }
      AtMostOneDelivery(Step(s, ev), evs[1..]);
    }
  }

  /** The email relay client: every call it receives is logged in `sent`. */
  class EmailRelay {
    var sent: seq<RelayRequest>

    constructor ()
      ensures sent == []
    {
      sent := [];
    }

    /** Forwards one request; resolves when the provider answers `Delivered`. */
    method Send(request: RelayRequest, outcome: RelayOutcome) returns (delivered: bool)
      modifies this
      ensures sent == old(sent) + [request]
      ensures delivered <==> outcome == Delivered
    {
      sent := sent + [request];
      delivered := outcome == Delivered;
    }
  }

  /** The contact page's component state and its two handlers. */
  class ContactPage {
    var isSubmitted: bool
    var isSending: bool
    var submitError: Option<string>
    var interest: string
    const relay: EmailRelay

    function State(): FormState
      reads this
    {
      FormState(isSubmitted, isSending, submitError, interest)
    }

    constructor (relay: EmailRelay)
      ensures State() == Initial && this.relay == relay
    {
      isSubmitted, isSending, submitError, interest := false, false, None, "";
      this.relay := relay;
    }

    /** The selector's change handler. */
    method SelectInterest(value: string)
      modifies this
      ensures State() == Step(old(State()), Select(value))
    {
      interest := value;
    }

    /** The form's submit handler, with the environment's key and the relay's
        answer as parameters. */
    method HandleSubmit(form: FormFields, publicKey: Option<string>, outcome: RelayOutcome)
      modifies this, relay
      ensures State() == Step(old(State()), Submit(form, publicKey, outcome))
      ensures relay.sent == old(relay.sent) + StepCalls(old(State()), Submit(form, publicKey, outcome))
    {
      ghost var s0 := State();
      SubmitCallsRelayAtMostOnce(form, interest, publicKey, outcome);
      submitError := None;
      var params := ToTemplateVariables(BuildTemplateParams(form, interest));
      if !Configured(publicKey) {
        submitError := Some(NotConfiguredMessage);
        SubmitWithoutKey(s0, form, s0.interest, publicKey, outcome);
        return;
      }
      isSending := true;
      var delivered := relay.Send(RelayRequest(ServiceId, TemplateId, params, publicKey.value), outcome);
      if delivered {
        isSubmitted := true;
        SubmitDelivered(s0, form, s0.interest, publicKey);
      } else {
        submitError := Some(RelayFailedMessage);
        SubmitRejected(s0, form, s0.interest, publicKey);
      }
      isSending := false;
    }
  }
}
