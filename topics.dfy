/** Topic names: `compose_topic` puts every device-scoped topic under the device name. */
module Topics {

  /** `compose_topic(suffix)` for the handler named `device`. */
  function Compose(device: string, suffix: string): (t: string)
    ensures |t| == |device| + 1 + |suffix|
    ensures t[..|device|] == device && t[|device|] == '/' && t[|device| + 1..] == suffix
  {
    device + "/" + suffix
  }

  /** Distinct suffixes give distinct topics under the same device. */
  lemma ComposeInjective(device: string, s1: string, s2: string)
    requires Compose(device, s1) == Compose(device, s2)
    ensures s1 == s2
  {
    var t := Compose(device, s1);
    assert s1 == t[|device| + 1..];
  }

  /** The presence topic and the state topic never coincide. */
  lemma PresenceAndStateDiffer(device: string)
    ensures Compose(device, "connected") != Compose(device, "state")
  {
    if Compose(device, "connected") == Compose(device, "state") {
      ComposeInjective(device, "connected", "state");
    }
  }
}
