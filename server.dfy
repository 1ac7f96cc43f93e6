/** The Flask server's MQTT state: three "last value" variables and a rolling
    log, all updated by the `on_message` callback. */
module FlaskServer {
  import opened Bounded

  const LogCap: nat := 30
  const RfidTopic: string := "rfid/id"
  const FingerprintTopic: string := "finger/verify"
  const ServoTopic: string := "servo/state"
  const NoValue: string := "Aucun"
  const ServoClosed: string := "Fermé"

  /** The log line for one message: `f"[{topic}] {payload}"`. */
  function LogLine(topic: string, payload: string): string
  {
    "[" + topic + "] " + payload
  }

  /** The module-level globals `last_rfid`, `last_fingerprint`,
      `servo_state` and `logs`. */
  class Server {
    var lastRfid: string
    var lastFingerprint: string
    var servoState: string
    /** Oldest entry first. */
    var logs: seq<string>

    ghost predicate Valid()
      reads this
    {
      |logs| <= LogCap
    }

    constructor ()
      ensures Valid()
      ensures lastRfid == NoValue && lastFingerprint == NoValue && servoState == ServoClosed
      ensures logs == []
    {
      lastRfid, lastFingerprint, servoState := NoValue, NoValue, ServoClosed;
      logs := [];
    }

    /** `on_message`: an exact topic match overwrites its one variable, so at
        most one of the three changes; every message, matched or not, is
        appended to the log, which then drops its oldest entry if it holds
        more than 30. */
    method OnMessage(topic: string, payload: string)
      requires Valid()
      modifies this
      ensures Valid()
      ensures lastRfid == if topic == RfidTopic then payload else old(lastRfid)
      ensures lastFingerprint == if topic == FingerprintTopic then payload else old(lastFingerprint)
      ensures servoState == if topic == ServoTopic then payload else old(servoState)
      ensures (lastRfid == old(lastRfid) && lastFingerprint == old(lastFingerprint)) ||
              (lastRfid == old(lastRfid) && servoState == old(servoState)) ||
              (lastFingerprint == old(lastFingerprint) && servoState == old(servoState))
      ensures logs == AppendCapped(old(logs), LogLine(topic, payload), LogCap)
    {
      if topic == RfidTopic {
        lastRfid := payload;
      } else if topic == FingerprintTopic {
        lastFingerprint := payload;
      } else if topic == ServoTopic {
        servoState := payload;
      }
      logs := logs + [LogLine(topic, payload)];
      if |logs| > LogCap {
        logs := logs[1..];
      }
    }
  }

  /** After any message the newest log entry is that message's line, the log
      is within 30 entries, and at most the entry at index 0 was dropped. */
  lemma LogAfterMessage(logs: seq<string>, topic: string, payload: string)
    requires |logs| <= LogCap
    ensures var after := AppendCapped(logs, LogLine(topic, payload), LogCap);
      && |after| <= LogCap
      && after[|after| - 1] == LogLine(topic, payload)
      && (after[..|after| - 1] == logs || after[..|after| - 1] == logs[1..])
  {
  }

  /** The lines a stream of `(topic, payload)` messages writes, in order. */
  function Lines(msgs: seq<(string, string)>): (ls: seq<string>)
    ensures |ls| == |msgs|
    ensures forall i :: 0 <= i < |msgs| ==> ls[i] == LogLine(msgs[i].0, msgs[i].1)
  {
    if msgs == [] then [] else [LogLine(msgs[0].0, msgs[0].1)] + Lines(msgs[1..])
  }

  /** From the initial empty log, the log holds the lines of the latest 30
      messages, oldest first: survivors keep their relative order. */
  lemma LogHoldsLatestThirty(msgs: seq<(string, string)>)
    ensures FeedLog([], Lines(msgs), LogCap) == Last(Lines(msgs), LogCap)
  {
    FeedLogKeepsLatest([], Lines(msgs), LogCap);
    assert [] + Lines(msgs) == Lines(msgs);
  }
}
