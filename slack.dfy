/** The Slack notifier (pkg/notifier/slack.go). */
module SlackNotifier {
  import opened Wrappers
  import opened Payload

  datatype Slack = Slack(url: string, username: string, channel: string) {

    /**
     * Post builds one attachment (colour from the severity, author
     * "workload.namespace", the message, the fields in order) and hands the
     * payload to postMessage. Its error is wrapped and dropped, so Post
     * always reports success. `sent` is the payload handed to postMessage,
     * and `postResult` what postMessage returned for it at the receiver's URL.
     */
    method Post(workload: string, namespace: string, message: string, fields: seq<Field>, severity: string,
                postMessage: PostMessage)
      returns (sent: SlackPayload, err: Option<string>, postResult: Option<string>)
      ensures sent.channel == channel && sent.username == username
      ensures sent.iconEmoji == RocketEmoji && sent.iconUrl == "" && sent.text == ""
      ensures |sent.attachments| == 1
      ensures sent.attachments[0].color == (if severity == "error" then "danger" else "good")
      ensures sent.attachments[0].authorName == workload + "." + namespace
      ensures sent.attachments[0].text == message
      ensures sent.attachments[0].mrkdwnIn == ["text"]
      ensures sent.attachments[0].fields == ToSlackFields(fields)
      ensures postResult == postMessage(url, sent)
      ensures err == None
    {
      var payload := SlackPayload(channel, username, "", RocketEmoji, "", []);
      var color := "good";
      if severity == "error" {
        color := "danger";
      }
      var sfield: seq<SlackField> := [];
      for i := 0 to |fields|
        invariant |sfield| == i
        invariant forall j | 0 <= j < i :: sfield[j] == SlackField(fields[j].name, fields[j].value, false)
      {
        sfield := sfield + [SlackField(fields[i].name, fields[i].value, false)];
      }
      var a := SlackAttachment(color, workload + "." + namespace, message, ["text"], sfield);
      payload := payload.(attachments := [a]);
      sent := payload;
      postResult := postMessage(url, payload);
      // the failure is wrapped into an error value that is never returned;
      // only `postResult` shows what postMessage gave back
      err := None;
    }
  }

  /**
   * NewSlack checks the hook URL first, then the username, then the channel,
   * and fails with the first check's message; on success it keeps all three.
   */
  function NewSlack(hookURL: string, username: string, channel: string, isRequestURI: RequestUriCheck)
    : (r: Result<Slack, string>)
    ensures r.Success? <==> isRequestURI(hookURL) && username != "" && channel != ""
    ensures r.Success? ==> r.value == Slack(hookURL, username, channel)
    ensures !isRequestURI(hookURL) ==> r == Failure("invalid Slack hook URL " + hookURL)
    ensures isRequestURI(hookURL) && username == "" ==> r == Failure("empty Slack username")
    ensures isRequestURI(hookURL) && username != "" && channel == "" ==> r == Failure("empty channel channel")
  {
    if !isRequestURI(hookURL) then Failure("invalid Slack hook URL " + hookURL)
    else if username == "" then Failure("empty Slack username")
    else if channel == "" then Failure("empty channel channel")
    else Success(Slack(hookURL, username, channel))
  }
}
