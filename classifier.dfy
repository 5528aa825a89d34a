/** The threshold classifier of `lambda_handler` in lambda/predictor.py: three independent ladders
    (flood, seismic, storm), each adding at most one alert text and possibly raising the running
    risk level. */
module Classifier {
  import opened Wrappers
  import opened Risk

  /** The four scalar readings the classifier looks at; `None` is a reading absent from the event. */
  datatype Readings = Readings(
    waterLevel: Option<real>,
    vibration: Option<real>,
    rainfall: Option<real>,
    windSpeed: Option<real>)

  /** A missing reading counts as 0. */
  function ValueOrZero(o: Option<real>): real
  {
    o.GetOr(0.0)
  }

  const FLOOD_CRITICAL: string := "\U{1F6A8} CRITICAL FLOOD RISK - Immediate evacuation recommended"
  const FLOOD_HIGH: string := "\U{26A0}\U{FE0F} HIGH FLOOD RISK - Monitor situation closely"
  const FLOOD_MODERATE: string := "\U{26A1} MODERATE FLOOD RISK - Stay alert"
  const SEISMIC_CRITICAL: string := "\U{1F6A8} MAJOR EARTHQUAKE ACTIVITY - Take cover immediately"
  const SEISMIC_HIGH: string := "\U{26A0}\U{FE0F} SIGNIFICANT SEISMIC ACTIVITY - Prepare for earthquake"
  const SEISMIC_MODERATE: string := "\U{26A1} MINOR SEISMIC ACTIVITY - Monitor situation"
  const STORM_CRITICAL: string := "\U{1F32A}\U{FE0F} SEVERE STORM WARNING - Seek shelter immediately"
  const STORM_HIGH: string := "\U{1F327}\U{FE0F} HEAVY RAINFALL WARNING - Flash flood risk"
  const STORM_MODERATE: string := "\U{1F4A8} HIGH WIND WARNING - Secure loose objects"

  /** One ladder's verdict: the tier it reached and the alert text it adds. */
  datatype Finding = Finding(level: Level, text: string)

  // ---------------------------------------------------------------------------------------------
  // Specification: each ladder picks its first matching tier; the overall level is the maximum.
  // ---------------------------------------------------------------------------------------------

  function FloodFinding(waterLevel: real): Option<Finding>
  {
    if waterLevel > 12.0 then Some(Finding(CRITICAL, FLOOD_CRITICAL))
    else if waterLevel > 8.0 then Some(Finding(HIGH, FLOOD_HIGH))
    else if waterLevel > 6.0 then Some(Finding(MODERATE, FLOOD_MODERATE))
    else None
  }

  function SeismicFinding(vibration: real): Option<Finding>
  {
    if vibration > 7.0 then Some(Finding(CRITICAL, SEISMIC_CRITICAL))
    else if vibration > 5.0 then Some(Finding(HIGH, SEISMIC_HIGH))
    else if vibration > 3.0 then Some(Finding(MODERATE, SEISMIC_MODERATE))
    else None
  }

  function StormFinding(rainfall: real, windSpeed: real): Option<Finding>
  {
    if rainfall > 75.0 && windSpeed > 60.0 then Some(Finding(CRITICAL, STORM_CRITICAL))
    else if rainfall > 50.0 then Some(Finding(HIGH, STORM_HIGH))
    else if windSpeed > 70.0 then Some(Finding(MODERATE, STORM_MODERATE))
    else None
  }

  /** The tier a ladder reached; LOW when it added no alert. */
  function Tier(f: Option<Finding>): Level
  {
    if f.Some? then f.value.level else LOW
  }

  /** The alerts a ladder adds: its one text, or nothing. */
  function Texts(f: Option<Finding>): seq<string>
  {
    if f.Some? then [f.value.text] else []
  }

  function Flood(r: Readings): Option<Finding> { FloodFinding(ValueOrZero(r.waterLevel)) }
  function Seismic(r: Readings): Option<Finding> { SeismicFinding(ValueOrZero(r.vibration)) }
  function Storm(r: Readings): Option<Finding> { StormFinding(ValueOrZero(r.rainfall), ValueOrZero(r.windSpeed)) }

  /** The alerts of the three ladders, in the order flood, seismic, storm. */
  function ExpectedAlerts(r: Readings): seq<string>
  {
    Texts(Flood(r)) + Texts(Seismic(r)) + Texts(Storm(r))
  }

  /** The most severe of the three per-category tiers. */
  function ExpectedLevel(r: Readings): Level
  {
    Max(Max(Tier(Flood(r)), Tier(Seismic(r))), Tier(Storm(r)))
  }

  // ---------------------------------------------------------------------------------------------
  // The source's steps: each block appends to `alerts` and updates `risk_level` under its own guard.
  // ---------------------------------------------------------------------------------------------

  /** Water level block. Its HIGH and MODERATE branches only raise a LOW level, so from MODERATE a
      HIGH flood leaves the level at MODERATE: it is the maximum only when entered at LOW, which is
      how the handler enters it. */
  method CheckFlood(waterLevel: real, alerts: seq<string>, risk: Level)
    returns (alerts': seq<string>, risk': Level)
    ensures alerts' == alerts + Texts(FloodFinding(waterLevel))
    ensures AtMost(risk, risk')
    ensures risk == LOW ==> risk' == Tier(FloodFinding(waterLevel))
    ensures risk != MODERATE ==> risk' == Max(risk, Tier(FloodFinding(waterLevel)))
    ensures risk == MODERATE ==>
      risk' == (if Tier(FloodFinding(waterLevel)) == CRITICAL then CRITICAL else MODERATE)
  {
    alerts', risk' := alerts, risk;
    if waterLevel > 12.0 {
      alerts' := alerts' + [FLOOD_CRITICAL];
      risk' := CRITICAL;
    } else if waterLevel > 8.0 {
      alerts' := alerts' + [FLOOD_HIGH];
      if risk' == LOW {
        risk' := HIGH;
      }
    } else if waterLevel > 6.0 {
      alerts' := alerts' + [FLOOD_MODERATE];
      if risk' == LOW {
        risk' := MODERATE;
      }
    }
  }

  /** Vibration block. Its guards (LOW or MODERATE for HIGH, LOW for MODERATE) make it the maximum
      from every incoming level. */
  method CheckSeismic(vibration: real, alerts: seq<string>, risk: Level)
    returns (alerts': seq<string>, risk': Level)
    ensures alerts' == alerts + Texts(SeismicFinding(vibration))
    ensures risk' == Max(risk, Tier(SeismicFinding(vibration)))
  {
    alerts', risk' := alerts, risk;
    if vibration > 7.0 {
      alerts' := alerts' + [SEISMIC_CRITICAL];
      risk' := CRITICAL;
    } else if vibration > 5.0 {
      alerts' := alerts' + [SEISMIC_HIGH];
      if risk' in {LOW, MODERATE} {
        risk' := HIGH;
      }
    } else if vibration > 3.0 {
      alerts' := alerts' + [SEISMIC_MODERATE];
      if risk' == LOW {
        risk' := MODERATE;
      }
    }
  }

  /** Weather block. Same guards as the vibration block, hence also the maximum from every level. */
  method CheckStorm(rainfall: real, windSpeed: real, alerts: seq<string>, risk: Level)
    returns (alerts': seq<string>, risk': Level)
    ensures alerts' == alerts + Texts(StormFinding(rainfall, windSpeed))
    ensures risk' == Max(risk, Tier(StormFinding(rainfall, windSpeed)))
  {
    alerts', risk' := alerts, risk;
    if rainfall > 75.0 && windSpeed > 60.0 {
      alerts' := alerts' + [STORM_CRITICAL];
      risk' := CRITICAL;
    } else if rainfall > 50.0 {
      alerts' := alerts' + [STORM_HIGH];
      if risk' in {LOW, MODERATE} {
        risk' := HIGH;
      }
    } else if windSpeed > 70.0 {
      alerts' := alerts' + [STORM_MODERATE];
      if risk' == LOW {
        risk' := MODERATE;
      }
    }
  }

  /** The three blocks in the source's order, starting from no alerts and LOW. The level never
      decreases from one block to the next and ends at the maximum of the three tiers. */
  method Classify(r: Readings) returns (alerts: seq<string>, risk: Level)
    ensures alerts == ExpectedAlerts(r)
    ensures risk == ExpectedLevel(r)
  {
    alerts := [];
    risk := LOW;
    var waterLevel := ValueOrZero(r.waterLevel);
    alerts, risk := CheckFlood(waterLevel, alerts, risk);
    var vibration := ValueOrZero(r.vibration);
    alerts, risk := CheckSeismic(vibration, alerts, risk);
    var rainfall := ValueOrZero(r.rainfall);
    var windSpeed := ValueOrZero(r.windSpeed);
    alerts, risk := CheckStorm(rainfall, windSpeed, alerts, risk);
  }

  // ---------------------------------------------------------------------------------------------
  // Properties of the specification.
  // ---------------------------------------------------------------------------------------------

  /** Flood tiers by strict inequality: (12, inf) CRITICAL, (8, 12] HIGH, (6, 8] MODERATE, none at or below 6. */
  lemma FloodTiers(w: real)
    ensures Tier(FloodFinding(w)) == CRITICAL <==> w > 12.0
    ensures Tier(FloodFinding(w)) == HIGH <==> 8.0 < w <= 12.0
    ensures Tier(FloodFinding(w)) == MODERATE <==> 6.0 < w <= 8.0
    ensures FloodFinding(w) == None <==> w <= 6.0
  {
  }

  /** Seismic tiers: (7, inf) CRITICAL, (5, 7] HIGH, (3, 5] MODERATE, none at or below 3. */
  lemma SeismicTiers(v: real)
    ensures Tier(SeismicFinding(v)) == CRITICAL <==> v > 7.0
    ensures Tier(SeismicFinding(v)) == HIGH <==> 5.0 < v <= 7.0
    ensures Tier(SeismicFinding(v)) == MODERATE <==> 3.0 < v <= 5.0
    ensures SeismicFinding(v) == None <==> v <= 3.0
  {
  }

  /** Storm tiers: CRITICAL needs both heavy rain and strong wind; otherwise rain above 50 alone
      gives HIGH; wind above 70 gives MODERATE only with rain at most 50. */
  lemma StormTiers(rain: real, wind: real)
    ensures Tier(StormFinding(rain, wind)) == CRITICAL <==> rain > 75.0 && wind > 60.0
    ensures Tier(StormFinding(rain, wind)) == HIGH <==> rain > 50.0 && !(rain > 75.0 && wind > 60.0)
    ensures Tier(StormFinding(rain, wind)) == MODERATE <==> rain <= 50.0 && wind > 70.0
    ensures StormFinding(rain, wind) == None <==> rain <= 50.0 && wind <= 70.0
  {
  }

  /** Absent readings count as 0, so an event with no readings raises nothing. */
  lemma NoReadingsNoAlerts()
    ensures ExpectedAlerts(Readings(None, None, None, None)) == []
    ensures ExpectedLevel(Readings(None, None, None, None)) == LOW
  {
  }

  /** The category an alert text belongs to: 0 flood, 1 seismic, 2 storm, 3 none of them. */
  function Category(text: string): nat
  {
    if text in {FLOOD_CRITICAL, FLOOD_HIGH, FLOOD_MODERATE} then 0
    else if text in {SEISMIC_CRITICAL, SEISMIC_HIGH, SEISMIC_MODERATE} then 1
    else if text in {STORM_CRITICAL, STORM_HIGH, STORM_MODERATE} then 2
    else 3
  }

  /** At most one alert per category, in the order flood, seismic, storm; so at most three. */
  lemma AlertsOrderedByCategory(r: Readings)
    ensures |ExpectedAlerts(r)| <= 3
    ensures forall i, j :: 0 <= i < j < |ExpectedAlerts(r)| ==>
      Category(ExpectedAlerts(r)[i]) < Category(ExpectedAlerts(r)[j])
  {
  }

  /** The level is LOW exactly when no alert fires; otherwise it is the tier of some alert that fired. */
  lemma LevelMatchesAlerts(r: Readings)
    ensures ExpectedLevel(r) == LOW <==> ExpectedAlerts(r) == []
    ensures ExpectedLevel(r) != LOW ==>
      exists f :: f in [Flood(r), Seismic(r), Storm(r)] && f.Some? && f.value.level == ExpectedLevel(r)
  {
  }

  /** The level is the least level that bounds every category's tier. */
  lemma LevelIsLeastUpperBound(r: Readings, bound: Level)
    ensures AtMost(Tier(Flood(r)), ExpectedLevel(r))
    ensures AtMost(Tier(Seismic(r)), ExpectedLevel(r))
    ensures AtMost(Tier(Storm(r)), ExpectedLevel(r))
    ensures AtMost(Tier(Flood(r)), bound) && AtMost(Tier(Seismic(r)), bound) && AtMost(Tier(Storm(r)), bound)
      ==> AtMost(ExpectedLevel(r), bound)
  {
  }
}
