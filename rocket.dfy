/** The Rocket.Chat notifier (pkg/notifier/rocket.go); it posts Slack-shaped payloads. */
module RocketNotifier {
  import opened Wrappers
  import opened Payload

  datatype Rocket = Rocket(url: string, username: string, channel: string) {

    /**
     * Post builds one attachment (colour from the severity, author
     * "workload.namespace", the message, the fields in order) and hands the
     * payload to postMessage; a failure comes back wrapped. `sent` is the
     * payload handed to postMessage.
     */
    method Post(workload: string, namespace: string, message: string, fields: seq<Field>, severity: string,
                postMessage: PostMessage)
      returns (sent: SlackPayload, err: Option<string>)
      ensures sent.channel == channel && sent.username == username
      ensures sent.iconEmoji == RocketEmoji && sent.iconUrl == "" && sent.text == ""
      ensures |sent.attachments| == 1
      ensures sent.attachments[0].color == (if severity == "error" then "#FF0000" else "#0076D7")
      ensures sent.attachments[0].authorName == workload + "." + namespace
      ensures sent.attachments[0].text == message
      ensures sent.attachments[0].mrkdwnIn == ["text"]
      ensures sent.attachments[0].fields == ToSlackFields(fields)
      ensures err.Some? <==> postMessage(url, sent).Some?
      ensures err.Some? ==> err.value == "postMessage failed: " + postMessage(url, sent).value
    {
      var payload := SlackPayload(channel, username, "", RocketEmoji, "", []);
      var color := "#0076D7";
      if severity == "error" {
        color := "#FF0000";
      }
      var sfields: seq<SlackField> := [];
      for i := 0 to |fields|
        invariant |sfields| == i
        invariant forall j | 0 <= j < i :: sfields[j] == SlackField(fields[j].name, fields[j].value, false)
      {
        sfields := sfields + [SlackField(fields[i].name, fields[i].value, false)];
      }
      var a := SlackAttachment(color, workload + "." + namespace, message, ["text"], sfields);
      payload := payload.(attachments := [a]);
      sent := payload;
      match postMessage(url, payload) {
        case Some(e) =>
          err := Some("postMessage failed: " + e);
        case None =>
          err := None;
      }
    }
  }

  /**
   * NewRocket checks the hook URL first, then the username, then the channel,
   * and fails with the first check's message; on success it keeps all three.
   */
  function NewRocket(hookURL: string, username: string, channel: string, isRequestURI: RequestUriCheck)
    : (r: Result<Rocket, string>)
    ensures r.Success? <==> isRequestURI(hookURL) && username != "" && channel != ""
    ensures r.Success? ==> r.value == Rocket(hookURL, username, channel)
    ensures !isRequestURI(hookURL) ==> r == Failure("invalid Rocket hook URL\U{FF1A}" + hookURL)
    ensures isRequestURI(hookURL) && username == "" ==> r == Failure("empty Rocket username")
    ensures isRequestURI(hookURL) && username != "" && channel == "" ==> r == Failure("empty Rocket channel")
  {
    if !isRequestURI(hookURL) then Failure("invalid Rocket hook URL\U{FF1A}" + hookURL)
    else if username == "" then Failure("empty Rocket username")
    else if channel == "" then Failure("empty Rocket channel")
    else Success(Rocket(hookURL, username, channel))
  }
}
