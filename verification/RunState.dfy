/** `RunState`: the mutable run state and its dictionary form. The source's flat fields are grouped
    as in `Document`. */
module State {
  import opened Text
  import opened Document

  class RunState {
    const header: Header
    const options: Options
    var phase: Phase
    var task: Task
    var results: Results
    var counters: Counters
    var question: Option<PendingQuestion>
    var lastTaskHead: Option<string>
    var intents: Intents
    var lastError: Option<ErrorRecord>
    var operationalRetries: int
    var checkpoints: Checkpoints

    function BodyFields(): Body
      reads this
    {
      Body(header, options, task, results, counters, question, lastTaskHead, intents)
    }

    /** `to_dict`. */
    function ToDict(): Doc
      reads this
    {
      Doc(BodyFields(), phase, lastError, operationalRetries, checkpoints)
    }

    constructor (d: Doc)
      ensures ToDict() == d
    {
      header, options, phase, task := d.body.header, d.body.options, d.phase, d.body.task;
      results, counters, question := d.body.results, d.body.counters, d.body.question;
      lastTaskHead, intents := d.body.lastTaskHead, d.body.intents;
      lastError, operationalRetries, checkpoints := d.lastError, d.operationalRetries, d.checkpoints;
    }
  }
}
