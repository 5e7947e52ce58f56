/** How the outcome of a downstream call is classified. */
module Downstream {
  import opened Manifest
  import opened Schema

  datatype Disposition = Unclear | Success | Refused

  /** Everything `Execute` can run into, in the order it can happen. Only the
      first three end before a byte of the request is sent. */
  datatype Reply =
    | NotEncoded
    | NotBuilt
    | NotDialed
    | Broken
    | Unreadable
    | Response(code: int, payload: Json)

  datatype Outcome = Outcome(disposition: Disposition, result: Json)

  function ClassifyResponse(errors: ErrorClassification, code: int, payload: Json): Outcome {
    if errors.IsDefinitive(code) then Outcome(Success, payload)
    else if errors.IsNotExecuted(code) then Outcome(Refused, payload)
    else Outcome(Unclear, payload)
  }

  function Classify(errors: ErrorClassification, reply: Reply): Outcome {
    match reply
    case NotEncoded => Outcome(Refused, "")
    case NotBuilt => Outcome(Refused, "")
    case NotDialed => Outcome(Refused, "")
    case Broken => Outcome(Unclear, "")
    case Unreadable => Outcome(Unclear, "")
    case Response(code, payload) => ClassifyResponse(errors, code, payload)
  }

  function StatusFor(disposition: Disposition): Status {
    match disposition
    case Success => Done
    case Refused => Failed
    case Unclear => Indeterminate
  }

  /** The request never left this process. */
  predicate NeverSent(reply: Reply) {
    reply.NotEncoded? || reply.NotBuilt? || reply.NotDialed?
  }

  /** The downstream declared, by its status, that it did not execute. */
  predicate Declined(errors: ErrorClassification, reply: Reply) {
    reply.Response? && errors.IsNotExecuted(reply.code)
  }

  /** What the reply brought along. */
  function Payload(reply: Reply): Json {
    if reply.Response? then reply.payload else ""
  }

  /** The status is the one to record a reply under, for any lists of statuses: done
      exactly for a definitive response, and failed exactly if the request was not
      sent or the response says that it was not executed and is not definitive. */
  ghost predicate Reads(errors: ErrorClassification, reply: Reply, status: Status) {
    && (status.Done? <==> reply.Response? && errors.IsDefinitive(reply.code))
    && (status.Failed? <==>
          NeverSent(reply) || (reply.Response? && errors.IsNotExecuted(reply.code) && !errors.IsDefinitive(reply.code)))
    && (status.Done? || status.Failed? || status.Indeterminate?)
  }

  lemma ClassifiedAsRead(errors: ErrorClassification, reply: Reply)
    ensures Reads(errors, reply, StatusFor(Classify(errors, reply).disposition))
    ensures Classify(errors, reply).result == Payload(reply)
  {
  }

  /** The status a reply is recorded under, read off the manifest without an
      order of branches. Valid for any document that validates. */
  lemma RecordedStatusMeaning(doc: Document, stem: string, reply: Reply)
    requires WellFormed(doc, stem)
    ensures var status := StatusFor(Classify(doc.errors, reply).disposition);
            && (status == Failed <==> NeverSent(reply) || Declined(doc.errors, reply))
            && (status == Done <==> reply.Response? && doc.errors.IsDefinitive(reply.code))
            && (status == Indeterminate <==>
                  !NeverSent(reply) && (reply.Response? ==>
                    !doc.errors.IsDefinitive(reply.code) && !doc.errors.IsNotExecuted(reply.code)))
  {
    SeparatedMeansUnambiguous(doc.errors);
  }

  /** Testing for "not executed" first gives the same outcome exactly for the
      statuses that are not in both lists, hence everywhere in a manifest that
      validates. */
  lemma BranchOrderIsIrrelevant(errors: ErrorClassification, code: int, payload: Json)
    ensures (if errors.IsNotExecuted(code) then Outcome(Refused, payload)
             else if errors.IsDefinitive(code) then Outcome(Success, payload)
             else Outcome(Unclear, payload)) == ClassifyResponse(errors, code, payload)
        <==> !(errors.IsDefinitive(code) && errors.IsNotExecuted(code))
    ensures errors.AllHttp() && errors.Separated() ==> !(errors.IsDefinitive(code) && errors.IsNotExecuted(code))
  {
    if errors.AllHttp() && errors.Separated() {
      SeparatedMeansUnambiguous(errors);
    }
  }
}
