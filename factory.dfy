/** Notifier selection (pkg/notifier/factory.go). */
module NotifierFactory {
  import opened Wrappers
  import opened Payload
  import opened SlackNotifier
  import opened RocketNotifier

  /** notifier.Interface: the notifier a factory hands out. */
  datatype Interface = NopNotifier | SlackClient(slack: Slack) | RocketClient(rocket: Rocket)

  datatype Factory = Factory(url: string, username: string, channel: string) {

    /**
     * Notifier picks a notifier by provider name. With no URL it is always the
     * no-op notifier; otherwise "slack" and "rocket" build theirs and any other
     * name is an error. Whenever there is an error the notifier is the no-op
     * one, so a usable notifier is always returned.
     */
    function Notifier(provider: string, isRequestURI: RequestUriCheck): (r: (Interface, Option<string>))
      ensures r.1.Some? ==> r.0 == NopNotifier
      ensures url == "" ==> r == (NopNotifier, None)
      ensures url != "" && provider == "slack" ==>
                match NewSlack(url, username, channel, isRequestURI)
                case Success(s) => r == (SlackClient(s), None)
                case Failure(e) => r == (NopNotifier, Some(e))
      ensures url != "" && provider == "rocket" ==>
                match NewRocket(url, username, channel, isRequestURI)
                case Success(rk) => r == (RocketClient(rk), None)
                case Failure(e) => r == (NopNotifier, Some(e))
      ensures url != "" && provider != "slack" && provider != "rocket" ==>
                r == (NopNotifier, Some("provider " + provider + " not supported"))
      ensures r.1.None? <==>
                url == "" || ((provider == "slack" || provider == "rocket") &&
                              isRequestURI(url) && username != "" && channel != "")
      ensures r.0.SlackClient? ==> r.0.slack == Slack(url, username, channel)
      ensures r.0.RocketClient? ==> r.0.rocket == Rocket(url, username, channel)
    {
      if url == "" then (NopNotifier, None)
      else
        var (n, err) :=
          if provider == "slack" then
            match NewSlack(url, username, channel, isRequestURI)
            case Success(s) => (SlackClient(s), None)
            case Failure(e) => (NopNotifier, Some(e))
          else if provider == "rocket" then
            match NewRocket(url, username, channel, isRequestURI)
            case Success(rk) => (RocketClient(rk), None)
            case Failure(e) => (NopNotifier, Some(e))
          else (NopNotifier, Some("provider " + provider + " not supported"));
        if err.Some? then (NopNotifier, err) else (n, err)
    }
  }

  /** NewFactory keeps the URL, username and channel exactly as given. */
  function NewFactory(url: string, username: string, channel: string): (f: Factory)
    ensures f.url == url && f.username == username && f.channel == channel
  {
    Factory(url, username, channel)
  }
}
