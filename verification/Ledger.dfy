/** The per-turn blackboard: the error ledger and the record of what the stages produced. */
module Ledger {
  import opened Seqs
  import opened Plan
  import opened EvidenceBag

  datatype Severity = Info | Warning | Failure

  /** Ledger codes: a fixed name, or the outcome of a plan step. */
  datatype Code = Named(name: string) | StepCode(status: Status, kind: Kind)

  /** User-visible text, kept as the data it is rendered from. */
  datatype Note =
    | Fixed(text: string)
    | Hits(count: nat, query: string)
    | NoHits(query: string)
    | SkillNote(what: string, name: string)

  datatype TurnError = TurnError(code: Code, note: Note, source: string, stepId: Option<Id>, severity: Severity)

  datatype Book = Book(errors: seq<TurnError>, warnings: seq<Code>)

  /** Ledger entries keep at most 32 characters of a step id and no empty one. */
  function LedgerId(id: Option<Id>): Option<Id> {
    if id.None? || id.value == "" then None else Some(Take(id.value, 32))
  }

  function Record(b: Book, e: TurnError): (r: Book)
    ensures r.errors == b.errors + [e.(stepId := LedgerId(e.stepId))]
    ensures forall c :: c in r.warnings <==> c in b.warnings || (e.severity != Failure && c == e.code)
  {
    Book(b.errors + [e.(stepId := LedgerId(e.stepId))],
         if e.severity != Failure && e.code !in b.warnings then b.warnings + [e.code] else b.warnings)
  }

  function StepSeverity(status: Status): Severity {
    if status == Skipped then Info else if status == Error then Failure else Warning
  }

  function StepError(id: Id, kind: Kind, status: Status, note: Note, source: string): TurnError {
    TurnError(StepCode(status, kind), note, source, Some(id), StepSeverity(status))
  }

  type SkillResult = (string, string)   // (status, payload)
  type Hint = (string, string)          // (name, description)

  class TurnState {
    var errors: seq<TurnError>
    var warnings: seq<Code>
    var plan: seq<Step>
    var evidence: seq<Evidence>
    var skillResults: seq<SkillResult>
    var suggested: seq<Hint>
    var waves: seq<seq<Id>>
    var parallelUsed: bool
    var usedL2: bool

    constructor ()
      ensures View() == Book([], [])
    {
      errors, warnings, plan, evidence, skillResults, suggested, waves := [], [], [], [], [], [], [];
      parallelUsed, usedL2 := false, false;
    }

    function View(): Book
      reads this
    {
      Book(errors, warnings)
    }

    /** Append an entry; a code below error severity is also listed once as a warning. */
    method RecordError(code: Code, note: Note, source: string, stepId: Option<Id>, severity: Severity)
      returns (err: TurnError)
      modifies this`errors, this`warnings
      ensures View() == Record(old(View()), TurnError(code, note, source, stepId, severity))
      ensures errors == old(errors) + [err]
      ensures err == TurnError(code, note, source, err.stepId, severity)
      ensures stepId.None? || stepId.value == "" ==> err.stepId == None
      ensures stepId.Some? && stepId.value != "" ==>
                err.stepId == Some(if |stepId.value| <= 32 then stepId.value else stepId.value[..32])
      ensures warnings == old(warnings) + (if severity == Failure || code in old(warnings) then [] else [code])
    {
      err := TurnError(code, note, source, LedgerId(stepId), severity);
      errors := errors + [err];
      if severity != Failure && code !in warnings {
        warnings := warnings + [code];
      }
    }

    /** A step that did not succeed leaves one entry; a successful one leaves none. */
    method RecordStepOutcome(id: Id, kind: Kind, status: Status, note: Note, source: string)
      returns (err: Option<TurnError>)
      modifies this`errors, this`warnings
      ensures status == Success ==> err == None && View() == old(View())
      ensures status != Success ==>
                && View() == Record(old(View()), StepError(id, kind, status, note, source))
                && errors[..|errors| - 1] == old(errors) && err == Some(errors[|errors| - 1])
                && err.value.code == StepCode(status, kind) && err.value.note == note && err.value.source == source
                && err.value.severity == (match status case Skipped => Info case Error => Failure case _ => Warning)
    {
      if status == Success {
        return None;
      }
      var e := RecordError(StepCode(status, kind), note, source, Some(id), StepSeverity(status));
      err := Some(e);
    }

    /** What the executor leaves on the blackboard besides the ledger. */
    method Publish(steps: seq<Step>, bag: seq<Evidence>, results: seq<SkillResult>, hints: seq<Hint>,
                   waves: seq<seq<Id>>, shared: bool)
      modifies this
      ensures View() == old(View())
      ensures plan == steps && evidence == bag && skillResults == results && suggested == hints
      ensures this.waves == waves && parallelUsed == shared && usedL2
    {
      plan, evidence, skillResults, suggested := steps, bag, results, hints;
      this.waves, parallelUsed, usedL2 := waves, shared, true;
    }
  }
}
