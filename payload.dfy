/**
 * The payload types shared by the Slack and Rocket notifiers
 * (pkg/notifier/slack.go) and the foreign calls they make.
 */
module Payload {
  import opened Wrappers

  /** notifier.Field: one name/value pair handed to Post. */
  datatype Field = Field(name: string, value: string)

  datatype SlackField = SlackField(title: string, value: string, short: bool)

  datatype SlackAttachment = SlackAttachment(
    color: string,
    authorName: string,
    text: string,
    mrkdwnIn: seq<string>,
    fields: seq<SlackField>)

  datatype SlackPayload = SlackPayload(
    channel: string,
    username: string,
    iconUrl: string,
    iconEmoji: string,
    text: string,
    attachments: seq<SlackAttachment>)

  /** url.ParseRequestURI: true when the string parses as a request URI. */
  type RequestUriCheck = string -> bool

  /** postMessage(url, payload): the error it returns, or None. */
  type PostMessage = (string, SlackPayload) -> Option<string>

  /** The icon both notifiers post with. */
  const RocketEmoji: string := ":rocket:"

  /** The Slack field of each input field, in order, never marked short. */
  function ToSlackFields(fields: seq<Field>): (r: seq<SlackField>)
    ensures |r| == |fields|
    ensures forall i | 0 <= i < |fields| :: r[i] == SlackField(fields[i].name, fields[i].value, false)
  {
    if fields == [] then []
    else
      var last := fields[|fields| - 1];
      ToSlackFields(fields[..|fields| - 1]) + [SlackField(last.name, last.value, false)]
  }

  /** The fields a list of Slack fields was built from. */
  function FieldsOf(sfields: seq<SlackField>): seq<Field>
  {
    if sfields == [] then [] else [Field(sfields[0].title, sfields[0].value)] + FieldsOf(sfields[1..])
  }

  /** The conversion to Slack fields loses nothing: each name and value is recovered in order. */
  lemma {:induction false} FieldsRoundTrip(fields: seq<Field>)
    ensures FieldsOf(ToSlackFields(fields)) == fields
    decreases |fields|
  {
    if fields != [] {
      var sf := ToSlackFields(fields);
      assert sf[1..] == ToSlackFields(fields[1..]);
      FieldsRoundTrip(fields[1..]);
      assert fields == [fields[0]] + fields[1..];
    }
  }
}
