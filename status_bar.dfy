/** The status bar shown above the script: a pure mapping from the current call status to a
    CSS class, a bracketed icon and a line of text. Every field of the status is optional and
    read with `||`, so an absent field, an empty string and the number 0 all take the default. */
module StatusBar {
  import opened Common

  datatype StatusData = StatusData(current: Option<int>, total: Option<int>, name: Option<string>,
                                   number: Option<int>, description: Option<string>, topic: Option<string>,
                                   currentStep: Option<int>, totalSteps: Option<int>, message: Option<string>)

  /** `status.data` absent: every `status.data?.x` is undefined. */
  const NoData := StatusData(None, None, None, None, None, None, None, None, None)

  datatype Status = Status(statusType: Option<string>, data: Option<StatusData>)

  /** The rendered bar: its class, the `status-icon` span and the `status-text` span. */
  datatype Label = Label(cssClass: string, icon: string, text: string)

  const WaitingLabel := Label("status-idle", "[ ● ]", "Listening...")
  const ReadyLabel := Label("status-idle", "[ ○ ]", "Ready")

  const KnownTypes := {"phase", "stage", "question", "objection", "diagnosis", "connecting", "listening"}

  /** `{a}/{b}` inside the icon brackets. */
  function Fraction(a: int, separator: string, b: int): string {
    "[ " + IntToString(a) + separator + IntToString(b) + " ]"
  }

  /** The case analysis of `renderStatusContent`, for a status whose type is set. */
  function LabelFor(statusType: string, d: StatusData): (r: Label)
    ensures statusType !in KnownTypes ==> r == ReadyLabel
    ensures r.icon != "" && r.icon[0] == '['
  {
    match statusType
    case "phase" =>
      Label("status-phase", Fraction(OrNumber(d.current, 1), "/", OrNumber(d.total, 6)), OrString(d.name, "Unknown Phase"))
    case "stage" =>
      Label("status-stage", Fraction(OrNumber(d.number, 1), "/", 9),
            OrString(d.name, "Unknown") + ": " + OrString(d.description, ""))
    case "question" => Label("status-question", "[ ? ]", "Customer Question: " + OrString(d.topic, "Unknown"))
    case "objection" => Label("status-objection", "[ ! ]", "Customer Objection: " + OrString(d.topic, "Unknown"))
    case "diagnosis" =>
      Label("status-diagnosis", Fraction(OrNumber(d.currentStep, 1), " / ", OrNumber(d.totalSteps, 7)), "Guided Diagnosis")
    case "connecting" => Label("status-connecting", "[ ⟳ ]", OrString(d.message, "Connecting..."))
    case "listening" => Label("status-listening", "[ ● ]", OrString(d.message, "Listening to call..."))
    case _ => ReadyLabel
  }

  /** Each known type is shown with the CSS class named after it. */
  lemma ClassNamesTheType(statusType: string, d: StatusData)
    requires statusType in KnownTypes
    ensures LabelFor(statusType, d).cssClass == "status-" + statusType
  {
    if statusType == "phase" {
      assert "status-" + statusType == "status-phase";
    } else if statusType == "stage" {
      assert "status-" + statusType == "status-stage";
    } else if statusType == "question" {
      assert "status-" + statusType == "status-question";
    } else if statusType == "objection" {
      assert "status-" + statusType == "status-objection";
    } else if statusType == "diagnosis" {
      assert "status-" + statusType == "status-diagnosis";
    } else if statusType == "connecting" {
      assert "status-" + statusType == "status-connecting";
    } else {
      assert "status-" + statusType == "status-listening";
    }
  }

  /** `DynamicStatusBar({ status })`. */
  function Render(status: Option<Status>): (r: Label)
    ensures status.None? || !TruthyString(status.value.statusType) ==> r == WaitingLabel
    ensures r.cssClass == "status-idle" <==>
              status.None? || !TruthyString(status.value.statusType) || status.value.statusType.value !in KnownTypes
  {
    if status.None? || !TruthyString(status.value.statusType) then WaitingLabel
    else LabelFor(status.value.statusType.value, status.value.data.GetOr(NoData))
  }

  function Typed(statusType: string, d: StatusData): Option<Status> {
    Some(Status(Some(statusType), Some(d)))
  }

  /** `idle` and every type the bar does not know show "Ready". */
  lemma IdleAndUnknownTypesAreReady(statusType: string, data: Option<StatusData>)
    requires statusType != "" && statusType !in KnownTypes
    ensures Render(Some(Status(Some(statusType), data))) == ReadyLabel
    ensures Render(Some(Status(Some("idle"), data))) == ReadyLabel
  {
  }

  /** Because the fields are read with `||`, a phase of 0 of 0 displays like an absent one, and
      a diagnosis step of 0 of 0 like an absent data record. */
  lemma ZeroTakesTheDefault(d: StatusData)
    ensures Render(Typed("phase", d.(current := Some(0), total := Some(0)))) ==
            Render(Typed("phase", d.(current := None, total := None)))
    ensures Render(Typed("diagnosis", d.(currentStep := Some(0), totalSteps := Some(0))))
            == Render(Some(Status(Some("diagnosis"), None)))
  {
  }

  /** Without data, a phase shows as 1 of 6 and a diagnosis as step 1 of 7. */
  lemma DefaultCounters()
    ensures Render(Some(Status(Some("phase"), None))) == Label("status-phase", "[ 1/6 ]", "Unknown Phase")
    ensures Render(Some(Status(Some("diagnosis"), None))) == Label("status-diagnosis", "[ 1 / 7 ]", "Guided Diagnosis")
  {
    assert IntToString(1) == "1" && IntToString(6) == "6" && IntToString(7) == "7";
  }

  /** A stage always counts out of 9; its text is the name, a colon and the description. */
  lemma StageIsOutOfNine(d: StatusData)
    ensures var r := Render(Typed("stage", d));
            var n := IntToString(OrNumber(d.number, 1));
            r.icon == "[ " + n + "/9 ]" &&
            r.text == OrString(d.name, "Unknown") + ": " + OrString(d.description, "")
  {
    assert IntToString(9) == "9";
  }

  /** Questions and objections name the topic after a fixed prefix; without one it is "Unknown". */
  lemma TopicIsPrefixed(d: StatusData)
    ensures var q := Render(Typed("question", d)).text;
            var prefix := "Customer Question: ";
            |q| > |prefix| && q[..|prefix|] == prefix &&
            q[|prefix|..] == if TruthyString(d.topic) then d.topic.value else "Unknown"
    ensures var o := Render(Typed("objection", d)).text;
            var prefix := "Customer Objection: ";
            |o| > |prefix| && o[..|prefix|] == prefix &&
            o[|prefix|..] == if TruthyString(d.topic) then d.topic.value else "Unknown"
  {
  }

  /** A phase with counts shows them as `[ c/t ]`, under its name. */
  lemma PhaseShowsItsCounts(d: StatusData)
    requires TruthyNumber(d.current) && TruthyNumber(d.total)
    ensures var r := Render(Typed("phase", d));
            r.icon == "[ " + IntToString(d.current.value) + "/" + IntToString(d.total.value) + " ]" &&
            r.text == OrString(d.name, "Unknown Phase")
  {
  }

  /** A diagnosis with steps shows them as `[ a / b ]`, spaced as in the markup. */
  lemma DiagnosisShowsItsSteps(d: StatusData)
    requires TruthyNumber(d.currentStep) && TruthyNumber(d.totalSteps)
    ensures var r := Render(Typed("diagnosis", d));
            r.icon == "[ " + IntToString(d.currentStep.value) + " / " + IntToString(d.totalSteps.value) + " ]" &&
            r.text == "Guided Diagnosis"
  {
  }

  /** The four types with a fixed icon. */
  lemma FixedIcons(d: StatusData)
    ensures Render(Typed("question", d)).icon == "[ ? ]"
    ensures Render(Typed("objection", d)).icon == "[ ! ]"
    ensures Render(Typed("connecting", d)).icon == "[ ⟳ ]"
    ensures Render(Typed("listening", d)).icon == "[ ● ]"
  {
  }

  /** A given message is shown as it is while connecting or listening. */
  lemma MessagesAreShown(d: StatusData)
    requires TruthyString(d.message)
    ensures Render(Typed("connecting", d)).text == d.message.value
    ensures Render(Typed("listening", d)).text == d.message.value
  {
  }

  /** Connecting and listening show the given message, or their own fallback. */
  lemma MessagesFallBack(d: StatusData)
    requires !TruthyString(d.message)
    ensures Render(Typed("connecting", d)).text == "Connecting..."
    ensures Render(Typed("listening", d)).text == "Listening to call..."
  {
  }
}
