# Disaster early-warning predictor, modelled in Dafny

This project models the risk predictor of a small disaster early-warning pipeline
(`lambda/predictor.py`). The predictor receives one event of sensor readings:
- water level,
- vibration magnitude,
- rainfall and wind speed.

It runs three independent threshold ladders:
- flood, on the water level;
- seismic, on the vibration;
- storm, on rainfall and wind.

Each ladder adds at most one alert text and may raise a running risk level over
LOW < MODERATE < HIGH < CRITICAL. If any alert fired, the handler composes a numbered,
multi-line alert message and a subject, publishes them to a notification topic (when one is
configured), and reports `alerts_generated = true`. Otherwise it reports that all systems are
normal, at level LOW.

Modules:
- `Risk` (risk.dfy): the ordered levels, their maximum and their names.
- `Classifier` (classifier.dfy) has two parts:
  - the specification: each ladder as a first-match function, and the overall level as the
    maximum of the three tiers;
  - the three blocks of the handler as methods. Each method is written with the source's own
    guards (`== 'LOW'`, `in ['LOW','MODERATE']`, unconditional CRITICAL) and is proved against
    that specification.
- `Decimal` (decimal.dfy): decimal rendering of the alert numbers and the warning count, with a
  parse-back round trip.
- `AlertMessage` (alert_message.dfy): the message lines, the newline join and the subject of
  `send_alert`.
- `Handler` (handler.dfy): the outcome of `lambda_handler`, and `send_alert`'s skip when no topic
  is configured.

Readings are `Option<real>`. The classifier treats a missing reading as 0. The message prints
`N/A` for it, because `send_alert` looks the readings up again in the event.

The guards of the three blocks differ: flood raises HIGH and MODERATE only from LOW, while seismic
and storm raise HIGH from LOW or MODERATE. The differing guards look as if they could make the
final level differ from the strict maximum of the three tiers; they do not:
- `CheckSeismic` and `CheckStorm` compute the maximum from every incoming level.
- `CheckFlood` computes it from LOW, which is the only level it is entered at.
- So `Classify` returns the maximum of the three tiers.

The flood block alone would not be a maximum from MODERATE (a HIGH flood would leave MODERATE).
`CheckFlood`'s contract states exactly that.

## Model

| member | source | states |
|---|---|---|
| `Risk.Max` | lambda/predictor.py:18-65 | the combined level bounds both levels and is one of them (the maximum in the order LOW < MODERATE < HIGH < CRITICAL) |
| `Risk.NameDeterminesLevel` | lambda/predictor.py:134 | the printed level names are told apart by their first letter, so a name identifies its level |
| `Classifier.CheckFlood` | lambda/predictor.py:20-33 | appends the flood alert (if any) after the existing alerts; never lowers the level; from LOW yields the flood tier; from any level but MODERATE yields the maximum; from MODERATE only a CRITICAL flood raises it |
| `Classifier.CheckSeismic` | lambda/predictor.py:35-48 | appends the seismic alert (if any); the new level is the maximum of the old level and the seismic tier, for every old level, despite the `== 'LOW'` guard on its MODERATE branch |
| `Classifier.CheckStorm` | lambda/predictor.py:50-65 | appends the storm alert (if any); the new level is the maximum of the old level and the storm tier, for every old level |
| `Classifier.Classify` | lambda/predictor.py:17-65 | starting from no alerts and LOW, the alerts are the flood, seismic and storm alerts in that order, and the final level is the maximum of the three per-category tiers |
| `Classifier.FloodTiers` | lambda/predictor.py:21-33 | flood is CRITICAL iff water > 12, HIGH iff 8 < water <= 12, MODERATE iff 6 < water <= 8, and adds no alert iff water <= 6 |
| `Classifier.SeismicTiers` | lambda/predictor.py:36-48 | seismic is CRITICAL iff v > 7, HIGH iff 5 < v <= 7, MODERATE iff 3 < v <= 5, no alert iff v <= 3 (boundary values fall to the lower tier) |
| `Classifier.StormTiers` | lambda/predictor.py:51-65 | storm is CRITICAL iff rain > 75 and wind > 60; HIGH iff rain > 50 without that; MODERATE iff wind > 70 and rain <= 50; no alert iff rain <= 50 and wind <= 70 |
| `Classifier.NoReadingsNoAlerts` | lambda/predictor.py:20-53 | with every reading missing (defaulting to 0) no alert fires and the level is LOW |
| `Classifier.AlertsOrderedByCategory` | lambda/predictor.py:17-65 | at most three alerts, at most one per category, in the order flood, seismic, storm |
| `Classifier.LevelMatchesAlerts` | lambda/predictor.py:18-65 | the level is LOW iff no alert fired; otherwise it is the tier of one of the alerts that fired |
| `Classifier.LevelIsLeastUpperBound` | lambda/predictor.py:18-65 | the level bounds every category's tier and is below any other level that bounds them all |
| `Classifier.ValueOrZero` | lambda/predictor.py:21-53 | a reading absent from the event counts as 0, as the `.get('value', 0)`, `.get('rainfall', 0)` and `.get('wind_speed', 0)` defaults do |
| `Classifier.FloodFinding` | lambda/predictor.py:21-33 | the flood ladder: the first of water > 12, > 8, > 6 that holds gives the CRITICAL, HIGH or MODERATE flood alert; none gives no alert |
| `Classifier.SeismicFinding` | lambda/predictor.py:36-48 | the seismic ladder: the first of vibration > 7, > 5, > 3 that holds gives the major, significant or minor seismic alert |
| `Classifier.StormFinding` | lambda/predictor.py:51-65 | the storm ladder: rain > 75 with wind > 60 gives the severe storm alert, else rain > 50 the heavy rainfall alert, else wind > 70 the high wind alert |
| `Classifier.ExpectedAlerts` | lambda/predictor.py:17-65 | the alerts of the three ladders concatenated in the order flood, seismic, storm |
| `Classifier.ExpectedLevel` | lambda/predictor.py:18-65 | the maximum of the flood, seismic and storm tiers, LOW for a ladder that adds no alert |
| `AlertMessage.HeaderLines` | lambda/predictor.py:111-117 | the five opening lines: the banner, "Risk Level: " with the level name, "Time: " with the timestamp, a blank line and "ALERTS:" |
| `AlertMessage.NumberedLine` | lambda/predictor.py:120 | one alert line: the decimal number, ". " and the alert text |
| `AlertMessage.NumberedFrom` | lambda/predictor.py:119-120 | the alerts in their order, each prefixed with consecutive numbers starting at the given one (1 for `enumerate(alerts, 1)`) |
| `AlertMessage.ReadingText` | lambda/predictor.py:125-128 | a reading's printed text, or "N/A" when the event lacks that reading |
| `AlertMessage.FooterLines` | lambda/predictor.py:122-131 | the eight closing lines: a blank line, "SENSOR DATA:", the water, vibration, rainfall and wind lines with their units, a blank line and the call to action |
| `AlertMessage.Join` | lambda/predictor.py:133 | the lines with the separator between consecutive ones, "" for no lines, as `"\n".join` |
| `AlertMessage.Subject` | lambda/predictor.py:134 | the subject: the banner, the risk level name, " DISASTER ALERT - ", the decimal alert count and " Warning(s)" |
| `Risk.Name` | lambda/predictor.py:18-65 | the text stored in `risk_level` for each level ("LOW", "MODERATE", "HIGH", "CRITICAL"), which lines 113 and 134 print |
| `Classifier.Flood` | lambda/predictor.py:21-33 | the flood ladder applied to the water level looked up with its default of 0 |
| `Classifier.Seismic` | lambda/predictor.py:36-48 | the seismic ladder applied to the vibration looked up with its default of 0 |
| `Classifier.Storm` | lambda/predictor.py:51-65 | the storm ladder applied to rainfall and wind speed, each looked up with its default of 0 |
| `AlertMessage.MessageLines` | lambda/predictor.py:111-131 | the finished `message_parts` list: the header lines, the alerts numbered from 1, then the footer lines |
| `Handler.Body.AlertsGenerated` | lambda/predictor.py:71-92 | the `alerts_generated` field: true for the alerts body, false for the all-normal body |
| `Decimal.NatToString` | lambda/predictor.py:119-120 | the number text is non-empty, all digits, and starts with 0 only for the number 0 |
| `Decimal.ParseNatToString` | lambda/predictor.py:119-120 | reading a rendered number back yields the number |
| `Decimal.NatToStringInjective` | lambda/predictor.py:134 | different counts render as different texts |
| `AlertMessage.NumberedFromSnoc` | lambda/predictor.py:119-120 | numbering one more alert appends one line carrying the next number |
| `AlertMessage.NumberedFromAt` | lambda/predictor.py:119-120 | the k-th numbered line is the number first + k followed by the k-th alert |
| `AlertMessage.ComposeMessageParts` | lambda/predictor.py:111-131 | the loop of appends and the final extend build exactly the header, the alerts numbered from 1, and the footer |
| `AlertMessage.MessageLayout` | lambda/predictor.py:111-131 | the message has 13 + n lines: five header lines (including the risk level), then line 5 + k is "k+1. " and the k-th alert for every k < n, then the eight sensor-data lines |
| `AlertMessage.SplitJoin` | lambda/predictor.py:133 | joining newline-free lines with a newline and splitting at newlines gives the lines back |
| `AlertMessage.MessageSplitsIntoLines` | lambda/predictor.py:133 | if the timestamp, alerts and rendered readings hold no newline, the published message splits back into exactly the composed lines |
| `AlertMessage.SubjectDetermines` | lambda/predictor.py:134 | the subject determines both the risk level and the number of warnings it embeds |
| `Handler.SendAlert` | lambda/predictor.py:101-134 | nothing is published iff no topic is configured; otherwise the published message is the joined message lines and the subject embeds the level and the alert count |
| `Handler.LambdaHandler` | lambda/predictor.py:14-92 | status 200; `alerts_generated` iff some alert fired; if not, level LOW, "All systems normal" and no publish; if so, the computed maximum level and the ordered alerts; a publish happens iff a topic is configured and an alert fired; timestamp from the event, else the clock |
| `Handler.CriticalFloodScenario` | lambda/predictor.py:23-25 | a water level of 13 with nothing else raises exactly the critical flood alert, at CRITICAL |
| `Handler.CalmScenario` | lambda/predictor.py:68-92 | water 5, vibration 2, rainfall 10, wind 5 raise no alert and leave the level LOW |

## Left out

- The SNS publish call, the `boto3` client, the lookup of `SNS_TOPIC_ARN` and the `MessageId` log line (lambda/predictor.py:7, 104, 137-143). These are foreign I/O. A configured topic is the boolean `topicConfigured`. `published` is the `Notification` that the code attempts to publish, not one known to have been delivered.
- `print` logging (lambda/predictor.py:82, 95, 107, 143, 146): output only.
- The blanket `except Exception` of `lambda_handler` (lambda/predictor.py:94-99), which returns status 500. It fires on malformed, non-numeric input, which the typed readings rule out.
- The `except Exception` of `send_alert` (lambda/predictor.py:145-146). It wraps `sns.publish`, so it catches delivery failures that have nothing to do with the input: network errors, missing permissions, throttling. When that happens the handler still returns status 200 with `alerts_generated = true`. The model does not represent a failed publish; `LambdaHandler`'s response is the same either way, which matches the source.
- `datetime.utcnow()` (lambda/predictor.py:15). The clock is the parameter `now`.
- Python's `str()` of a number in the sensor-data lines. It is the parameter `render`.
- JSON serialisation of the response body (`json.dumps`). The body is the `Body` datatype.
- Handler.LambdaHandler: the `sensor_data` echo (lambda/predictor.py:77, 89) returns the event's whole `sensors` dictionary, including sensor identifiers, units, locations and temperature. `Body.sensorData` keeps only the four readings the classifier uses.
- Integers versus floats in the event: every reading is a `real`, so comparisons are exact. The printed form is lost with the type: Python prints an int reading as `13` and a float as `13.0`, while `render` sees only the value, so an event holding an int and a float of equal value cannot be rendered as the source does.
- lambda/alert_sender.py and lambda/data_generator.py are not part of this model. They only route events to logging and publishing, draw random readings, and dispatch asynchronously.
- Idempotence: classifying the same readings twice gives the same result, because the model is deterministic. No lemma states this separately.
