/** services/NotificationService.js: `sendEmail` only logs after a delay;
    the model records each email it is asked to send, in order. */
module NotificationService {
  import opened Js

  /** The data object passed with each template. */
  datatype EmailData =
    | CancellationData(reason: string)
    | RenewalData(plan: string, expiresAt: Value)

  datatype Email = Email(to: string, template: string, data: EmailData)

  class Outbox {
    var sent: seq<Email>

    constructor ()
      ensures sent == []
    {
      sent := [];
    }

    method SendEmail(to: string, template: string, data: EmailData)
      modifies this
      ensures sent == old(sent) + [Email(to, template, data)]
    {
      sent := sent + [Email(to, template, data)];
    }
  }
}
