/** The guided-diagnosis wizard: seven yes/no questions about a credit report, walked through
    one at a time. "Yes" loads the question's script and offers "Continue"; "No" and "Continue"
    move to the next question, or report completion at the seventh.

    The component's two pieces of state (`currentStep`, `showContinue`) are the fields of
    `Wizard`; its handlers are methods proved against the pure transition `Next`, and the calls
    it makes to its `onScriptUpdate` and `onComplete` properties are returned as an `Effect`. */
module GuidedDiagnosis {
  import opened Common

  datatype Question = Question(id: int, question: string, script: string)

  /** The scripts loaded by Yes, one per question. */
  const Script1 := "I can see there appears to be a spelling error with your name on this report. This is actually more common than you might think, and it's something we can help you fix. Let me walk you through the dispute process to get this corrected..."
  const Script2 := "I notice there's an account showing up that you don't recognize. This could be a case of mistaken identity or even fraud. The good news is we have a proven process to investigate and remove accounts that don't belong to you..."
  const Script3 := "I see what appears to be duplicate entries for the same account. This can unfairly impact your credit score. We'll help you consolidate these duplicates and ensure your report accurately reflects your actual credit history..."
  const Script4 := "I notice you have some late payments from over 2 years ago. While these are still on your report, their impact diminishes over time. We can explore options to potentially remove these older items and improve your score..."
  const Script5 := "I can see there are charge-offs or collections on your report. These are seriously affecting your score, but we have strategies to negotiate with creditors and potentially remove or settle these accounts for less than what's owed..."
  const Script6 := "There are some credit inquiries from over 6 months ago showing on your report. While inquiries have less impact after 6 months, we can still work on removing unauthorized or unnecessary inquiries to give your score a boost..."
  const Script7 := "Your credit utilization is currently above 30%, which is impacting your score. The fastest way to improve your credit is to get this below 30%, ideally below 10%. Let me show you some strategies to quickly reduce your utilization..."

  /** `DIAGNOSIS_QUESTIONS`. */
  const DiagnosisQuestions: seq<Question> := [
    Question(1, "Are there any incorrectly spelled names?", Script1),
    Question(2, "Are there accounts that don't belong to the customer?", Script2),
    Question(3, "Are there duplicate accounts?", Script3),
    Question(4, "Are there late payments older than 2 years?", Script4),
    Question(5, "Are there charge-offs or collections?", Script5),
    Question(6, "Are there inquiries older than 6 months?", Script6),
    Question(7, "Is the credit utilization above 30%?", Script7)
  ]

  /** The number of the last question. */
  const LastStep := 7

  /** `questions.find(q => q.id === id)`: the first question with that id. */
  function FindQuestion(questions: seq<Question>, id: int): (r: Option<Question>)
    ensures r.None? <==> forall i :: 0 <= i < |questions| ==> questions[i].id != id
    ensures r.Some? ==> exists i :: 0 <= i < |questions| && questions[i] == r.value &&
                                    r.value.id == id && forall j :: 0 <= j < i ==> questions[j].id != id
  {
    if questions == [] then None
    else if questions[0].id == id then Some(questions[0])
    else
      var rest := FindQuestion(questions[1..], id);
      if rest.Some? then
        ghost var k :| 0 <= k < |questions[1..]| && questions[1..][k] == rest.value && rest.value.id == id &&
                       forall j :: 0 <= j < k ==> questions[1..][j].id != id;
        assert questions[k + 1] == rest.value;
        rest
      else rest
  }

  /** Seven questions, numbered 1..7 in order. */
  predicate Numbered(qs: seq<Question>) {
    |qs| == LastStep && forall i :: 0 <= i < |qs| ==> qs[i].id == i + 1
  }

  lemma DiagnosisQuestionsAreNumbered()
    ensures Numbered(DiagnosisQuestions)
  {
  }

  /** In a numbered list the question shown at each step 1..7 is the step-th entry, and no
      other step has one. */
  lemma QuestionAtEveryStep(qs: seq<Question>, step: int)
    requires Numbered(qs)
    ensures 1 <= step <= LastStep ==> FindQuestion(qs, step) == Some(qs[step - 1])
    ensures !(1 <= step <= LastStep) ==> FindQuestion(qs, step).None?
  {
    if 1 <= step <= LastStep {
      var r := FindQuestion(qs, step);
      assert qs[step - 1].id == step;
      var i :| 0 <= i < |qs| && qs[i] == r.value && r.value.id == step && forall j :: 0 <= j < i ==> qs[j].id != step;
      assert i == step - 1;
    }
  }

  datatype Event = Yes | No | Continue

  /** What a handler asks its host to do. */
  datatype Effect = NoEffect | ScriptUpdate(script: string) | Completed

  datatype WizardState = WizardState(currentStep: int, showContinue: bool)

  /** `useState(1)` and `useState(false)`. */
  const Initial := WizardState(1, false)

  datatype Transition = Transition(state: WizardState, effect: Effect)

  predicate InRange(s: WizardState) {
    1 <= s.currentStep <= LastStep
  }

  /** Yes and No are rendered only while "Continue" is hidden; Continue only while it is shown. */
  predicate Offered(s: WizardState, e: Event) {
    match e
    case Yes => !s.showContinue
    case No => !s.showContinue
    case Continue => s.showContinue
  }

  /** `currentStep === 7 ? onComplete() : setCurrentStep(currentStep + 1)`. */
  function Advance(s: WizardState): (t: Transition)
    ensures t.effect == Completed <==> s.currentStep == LastStep
    ensures t.effect != Completed ==> t.effect == NoEffect && t.state.currentStep == s.currentStep + 1
    ensures t.state.currentStep == if s.currentStep == LastStep then s.currentStep else s.currentStep + 1
    ensures t.state.showContinue == s.showContinue
  {
    if s.currentStep == LastStep then Transition(s, Completed)
    else Transition(s.(currentStep := s.currentStep + 1), NoEffect)
  }

  /** One handler call. `handleYes` looks the current question up, which exists at steps 1..7
      and is the step-th entry of a numbered list. */
  function Next(qs: seq<Question>, s: WizardState, e: Event): (t: Transition)
    requires Numbered(qs) && InRange(s)
    ensures InRange(t.state)
    ensures e == Yes ==> t == Transition(s.(showContinue := true), ScriptUpdate(qs[s.currentStep - 1].script))
    ensures e == No ==> t.state.showContinue == s.showContinue
    ensures e == Continue ==> !t.state.showContinue
    ensures e != Yes ==> t.state.currentStep == Min(s.currentStep + 1, LastStep)
    ensures t.effect == Completed <==> e != Yes && s.currentStep == LastStep
  {
    match e
    case Yes =>
      // the question `find` returns, by QuestionAtEveryStep
      Transition(s.(showContinue := true), ScriptUpdate(qs[s.currentStep - 1].script))
    case No => Advance(s)
    case Continue => Advance(s.(showContinue := false))
  }

  /** The state after a sequence of handler calls. */
  function Final(qs: seq<Question>, s: WizardState, events: seq<Event>): (r: WizardState)
    requires Numbered(qs) && InRange(s)
    ensures InRange(r)
  {
    if events == [] then s else Next(qs, Final(qs, s, events[..|events| - 1]), events[|events| - 1]).state
  }

  /** The effects a sequence of handler calls produces, in order. */
  function Effects(qs: seq<Question>, s: WizardState, events: seq<Event>): (r: seq<Effect>)
    requires Numbered(qs) && InRange(s)
    ensures |r| == |events|
  {
    if events == [] then []
    else Effects(qs, s, events[..|events| - 1]) + [Next(qs, Final(qs, s, events[..|events| - 1]), events[|events| - 1]).effect]
  }

  /** The number of No and Continue events. */
  function Advances(events: seq<Event>): (n: nat)
    ensures n <= |events|
  {
    if events == [] then 0
    else Advances(events[..|events| - 1]) + (if events[|events| - 1] == Yes then 0 else 1)
  }

  function CountCompleted(effects: seq<Effect>): nat {
    if effects == [] then 0
    else CountCompleted(effects[..|effects| - 1]) + (if effects[|effects| - 1] == Completed then 1 else 0)
  }

  /** From the first question, the step is one more than the number of No/Continue events,
      stopping at 7. */
  lemma {:induction false} StepCountsAdvances(qs: seq<Question>, events: seq<Event>)
    requires Numbered(qs)
    ensures Final(qs, Initial, events).currentStep == Min(1 + Advances(events), LastStep)
  {
    if events != [] {
      var n := |events| - 1;
      var init := events[..n];
      StepCountsAdvances(qs, init);
      assert Final(qs, Initial, events) == Next(qs, Final(qs, Initial, init), events[n]).state;
      assert Advances(events) == Advances(init) + (if events[n] == Yes then 0 else 1);
    }
  }

  lemma CountCompletedSnoc(effects: seq<Effect>, e: Effect)
    ensures CountCompleted(effects + [e]) == CountCompleted(effects) + (if e == Completed then 1 else 0)
  {
    assert (effects + [e])[..|effects|] == effects;
  }

  /** The arithmetic of one more event: a No or Continue at step 7 adds one completion. */
  lemma CountArithmetic(count: nat, advances: nat, step: int, yes: bool, completed: bool)
    requires count == Max(0, advances - (LastStep - 1)) && step == Min(1 + advances, LastStep)
    requires completed <==> !yes && step == LastStep
    ensures count + (if completed then 1 else 0) == Max(0, advances + (if yes then 0 else 1) - (LastStep - 1))
  {
  }

  /** One more event keeps the completion count in step with the advances. */
  lemma CountAfterOneEvent(qs: seq<Question>, events: seq<Event>)
    requires Numbered(qs) && events != []
    requires var init := events[..|events| - 1];
             CountCompleted(Effects(qs, Initial, init)) == Max(0, Advances(init) - (LastStep - 1)) &&
             Final(qs, Initial, init).currentStep == Min(1 + Advances(init), LastStep)
    ensures CountCompleted(Effects(qs, Initial, events)) == Max(0, Advances(events) - (LastStep - 1))
  {
    var init := events[..|events| - 1];
    var e := events[|events| - 1];
    var before := Final(qs, Initial, init);
    var effect := Next(qs, before, e).effect;
    var count := CountCompleted(Effects(qs, Initial, init));
    assert Effects(qs, Initial, events) == Effects(qs, Initial, init) + [effect];
    CountCompletedSnoc(Effects(qs, Initial, init), effect);
    assert Advances(events) == Advances(init) + (if e == Yes then 0 else 1);
    CountArithmetic(count, Advances(init), before.currentStep, e == Yes, effect == Completed);
  }

  /** Completion is reported once for every No/Continue taken at step 7. */
  lemma {:induction false} CompletionsCountAdvances(qs: seq<Question>, events: seq<Event>)
    requires Numbered(qs)
    ensures CountCompleted(Effects(qs, Initial, events)) == Max(0, Advances(events) - (LastStep - 1))
  {
    if events != [] {
      CompletionsCountAdvances(qs, events[..|events| - 1]);
      StepCountsAdvances(qs, events[..|events| - 1]);
      CountAfterOneEvent(qs, events);
    }
  }

  /** `Completed` is only ever produced at step 7. */
  lemma CompletesOnlyAtLastStep(qs: seq<Question>, s: WizardState, e: Event)
    requires Numbered(qs) && InRange(s)
    ensures Next(qs, s, e).effect == Completed ==> s.currentStep == LastStep && Next(qs, s, e).state.currentStep == LastStep
  {
  }

  /** Every event of `events` presses a button that is shown at that moment. */
  predicate OfferedRun(qs: seq<Question>, events: seq<Event>)
    requires Numbered(qs)
    decreases |events|
  {
    events == [] ||
    (OfferedRun(qs, events[..|events| - 1]) &&
     Offered(Final(qs, Initial, events[..|events| - 1]), events[|events| - 1]))
  }

  /** When the user presses only the buttons that are shown, "Continue" is shown exactly when
      the last press was Yes, and Yes is always followed by Continue before the next question
      is answered. */
  lemma {:induction false} OfferedRunShowsContinueAfterYes(qs: seq<Question>, events: seq<Event>)
    requires Numbered(qs) && OfferedRun(qs, events)
    ensures Final(qs, Initial, events).showContinue <==> events != [] && events[|events| - 1] == Yes
    ensures forall k :: 0 < k < |events| && events[k - 1] == Yes ==> events[k] == Continue
  {
    if events != [] {
      var n := |events| - 1;
      var init := events[..n];
      OfferedRunShowsContinueAfterYes(qs, init);
      assert Final(qs, Initial, events) == Next(qs, Final(qs, Initial, init), events[n]).state;
      forall k | 0 < k < |events| && events[k - 1] == Yes
        ensures events[k] == Continue
      {
        assert init[k - 1] == events[k - 1];
        if k < n {
          assert init[k] == events[k];
        }
      }
    }
  }

  /** The component's state. */
  class Wizard {
    /** `DIAGNOSIS_QUESTIONS`, the list the component reads. */
    const questions: seq<Question>
    var currentStep: int
    var showContinue: bool

    function State(): WizardState
      reads this
    {
      WizardState(currentStep, showContinue)
    }

    ghost predicate Valid()
      reads this
    {
      Numbered(questions) && InRange(State())
    }

    constructor ()
      ensures questions == DiagnosisQuestions
      ensures State() == Initial && Valid()
    {
      DiagnosisQuestionsAreNumbered();
      questions := DiagnosisQuestions;
      currentStep := 1;
      showContinue := false;
    }

    method HandleYes() returns (effect: Effect)
      requires Valid()
      modifies this
      ensures Valid()
      ensures Transition(State(), effect) == Next(questions, old(State()), Yes)
    {
      var question := FindQuestion(questions, currentStep);
      QuestionAtEveryStep(questions, currentStep);
      effect := ScriptUpdate(question.value.script);
      showContinue := true;
    }

    method HandleNo() returns (effect: Effect)
      requires Valid()
      modifies this
      ensures Valid()
      ensures Transition(State(), effect) == Next(questions, old(State()), No)
    {
      if currentStep == LastStep {
        effect := Completed;
      } else {
        currentStep := currentStep + 1;
        effect := NoEffect;
      }
    }

    method HandleContinue() returns (effect: Effect)
      requires Valid()
      modifies this
      ensures Valid()
      ensures Transition(State(), effect) == Next(questions, old(State()), Continue)
    {
      showContinue := false;
      if currentStep == LastStep {
        effect := Completed;
      } else {
        currentStep := currentStep + 1;
        effect := NoEffect;
      }
    }
  }
}
