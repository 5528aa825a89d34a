/** The outcome of `lambda_handler` in lambda/predictor.py: classify, then either publish an alert
    and report it, or report that all is normal. Whether a notification topic is configured is a
    parameter; the publish call itself is represented by the notification the code attempts to
    send, whether or not it is delivered. */
module Handler {
  import opened Wrappers
  import opened Risk
  import opened Classifier
  import opened AlertMessage

  /** The event: the sensor readings and, possibly, a timestamp. */
  datatype Event = Event(sensors: Readings, timestamp: Option<string>)

  /** The JSON body of a successful response. */
  datatype Body =
    | AlertsBody(riskLevel: Level, alerts: seq<string>, sensorData: Readings, timestamp: string)
    | NormalBody(riskLevel: Level, message: string, sensorData: Readings, timestamp: string)
  {
    /** The `alerts_generated` field. */
    predicate AlertsGenerated()
    {
      AlertsBody?
    }
  }

  datatype Response = Response(statusCode: nat, body: Body)

  /** What one publish to the topic carries. */
  datatype Notification = Notification(message: string, subject: string)

  /** Composes and publishes the alert; nothing is published when no topic is configured. */
  method SendAlert(alerts: seq<string>, riskLevel: Level, event: Event, timestamp: string,
                   topicConfigured: bool, render: real -> string)
    returns (published: Option<Notification>)
    ensures published.Some? <==> topicConfigured
    ensures published.Some? ==>
      published.value.message == Join(MessageLines(alerts, riskLevel, timestamp, event.sensors, render), "\n") &&
      published.value.subject == Subject(riskLevel, |alerts|)
  {
    if !topicConfigured {
      return None;
    }
    var parts := ComposeMessageParts(alerts, riskLevel, timestamp, event.sensors, render);
    var message := Join(parts, "\n");
    var subject := Subject(riskLevel, |alerts|);
    published := Some(Notification(message, subject));
  }

  /** Runs the classifier and reports its outcome. `now` stands for the clock read when the event
      carries no timestamp. */
  method LambdaHandler(event: Event, now: string, topicConfigured: bool, render: real -> string)
    returns (response: Response, published: Option<Notification>)
    ensures response.statusCode == 200
    ensures response.body.sensorData == event.sensors
    ensures response.body.timestamp == event.timestamp.GetOr(now)
    ensures response.body.AlertsGenerated() <==> ExpectedAlerts(event.sensors) != []
    ensures response.body.riskLevel == ExpectedLevel(event.sensors)
    ensures !response.body.AlertsGenerated() ==>
      response.body.riskLevel == LOW && response.body.message == "All systems normal" && published == None
    ensures response.body.AlertsGenerated() ==> response.body.alerts == ExpectedAlerts(event.sensors)
    ensures published.Some? <==> topicConfigured && ExpectedAlerts(event.sensors) != []
    ensures published.Some? ==>
      published.value.subject == Subject(ExpectedLevel(event.sensors), |ExpectedAlerts(event.sensors)|) &&
      published.value.message == Join(MessageLines(ExpectedAlerts(event.sensors), ExpectedLevel(event.sensors),
                                                   event.timestamp.GetOr(now), event.sensors, render), "\n")
  {
    var sensors := event.sensors;
    var timestamp := event.timestamp.GetOr(now);
    var alerts, riskLevel := Classify(sensors);
    LevelMatchesAlerts(sensors);
    if alerts != [] {
      published := SendAlert(alerts, riskLevel, event, timestamp, topicConfigured, render);
      response := Response(200, AlertsBody(riskLevel, alerts, sensors, timestamp));
    } else {
      published := None;
      response := Response(200, NormalBody(LOW, "All systems normal", sensors, timestamp));
    }
  }

  /** Example: a water level of 13 alone raises exactly the critical flood alert at CRITICAL. */
  lemma CriticalFloodScenario()
    ensures ExpectedAlerts(Readings(Some(13.0), None, None, None)) == [FLOOD_CRITICAL]
    ensures ExpectedLevel(Readings(Some(13.0), None, None, None)) == CRITICAL
  {
  }

  /** Example: readings all below their lowest thresholds raise nothing. */
  lemma CalmScenario()
    ensures ExpectedAlerts(Readings(Some(5.0), Some(2.0), Some(10.0), Some(5.0))) == []
    ensures ExpectedLevel(Readings(Some(5.0), Some(2.0), Some(10.0), Some(5.0))) == LOW
  {
  }
}
